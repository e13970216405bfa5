/**
 * The colour-scheme controls as the page runs them: one storage slot, the
 * in-memory preference `currentScheme` (a plain string, since a storage event
 * from another tab may deliver any value), and the rendered display. Every
 * browser input is a parameter: whether a storage read or write throws, and the
 * dark-mode media query (`None` when the browser has none).
 */
module ColorSchemeControls {
  import opened Wrappers
  import opened ColorScheme

  class Controls {
    /** The storage key, supplied by the page's configuration. */
    const storageKey: string
    /** What the storage key holds; None when it is absent. */
    var stored: Option<string>
    /** The in-memory preference. */
    var currentScheme: string
    /** Whether the root element carries the dark-mode class. */
    var darkClass: bool
    var statusText: string
    var fixDarkText: string
    var fixLightText: string

    /** The preference and media query of the last rendering. */
    ghost var shown: Scheme
    ghost var shownMq: Option<bool>

    function Shown(): Display
      reads this
    {
      Display(darkClass, statusText, fixDarkText, fixLightText)
    }

    /**
     * The display is always the rendering of some preference, and whenever the
     * in-memory preference is a valid name it is the rendering of that one.
     */
    ghost predicate Valid()
      reads this
    {
      Shown() == Render(shown, shownMq) &&
      (IsSchemeName(currentScheme) ==> currentScheme == Name(shown))
    }

    /** Set-up: read the stored preference and render it once. */
    constructor (key: string, slot: Option<string>, readFails: bool, mq: Option<bool>)
      ensures Valid()
      ensures storageKey == key && stored == slot
      ensures currentScheme == Name(ReadColorScheme(slot, readFails))
      ensures Shown() == Render(ReadColorScheme(slot, readFails), mq)
    {
      storageKey := key;
      stored := slot;
      currentScheme := Name(ReadColorScheme(slot, readFails));
      // the page's own markup before the first rendering
      darkClass, statusText, fixDarkText, fixLightText := false, "", "", "";
      shown, shownMq := OS, mq;
      new;
      ParseName(ReadColorScheme(slot, readFails));
      ApplyToDOM(mq);
    }

    /**
     * Store a preference: Dark and Light are written, anything else removes the
     * key. Returns false exactly when storage throws, and then nothing changes.
     */
    method StoreColorScheme(val: string, storeFails: bool) returns (ok: bool)
      modifies this`stored
      ensures ok == !storeFails
      ensures stored == if ok then Persisted(val) else old(stored)
    {
      if storeFails {
        return false;
      }
      if val == Name(Dark) || val == Name(Light) {
        stored := Some(val);
      } else {
        stored := None;
      }
      ok := true;
    }

    /**
     * Reflect `currentScheme` in the display; an invalid name changes nothing.
     * Also the listener for changes of the OS setting.
     */
    method ApplyToDOM(mq: Option<bool>)
      modifies this`darkClass, this`statusText, this`fixDarkText, this`fixLightText, this`shown, this`shownMq
      ensures IsSchemeName(currentScheme) ==> Valid() && Shown() == Render(Parse(currentScheme).value, mq)
      ensures !IsSchemeName(currentScheme) ==> unchanged(this)
    {
      if !IsSchemeName(currentScheme) {
        return;
      }
      var cur := Parse(currentScheme).value;
      var d := Render(cur, mq);
      darkClass := d.darkClass;
      statusText := d.status;
      fixDarkText := d.fixDarkText;
      fixLightText := d.fixLightText;
      shown, shownMq := cur, mq;
    }

    /**
     * Another tab writes or removes the shared storage key. Not a handler of
     * this page: the browser's own update of the slot, which precedes the
     * storage event it causes here.
     */
    method OtherTabWrites(v: Option<string>)
      modifies this`stored
      ensures stored == v
    {
      stored := v;
    }

    /**
     * A storage event from another tab. Another key is ignored; otherwise the
     * new value (OS for a removed key) replaces `currentScheme` unvalidated and
     * the display is re-applied, unless it equals the current value. The
     * browser delivers an event for the key only once the key holds its new
     * value.
     */
    method OnStorage(key: Option<string>, newValue: Option<string>, mq: Option<bool>)
      requires Valid()
      requires key == Some(storageKey) ==> stored == newValue
      modifies this
      ensures Valid()
      ensures key != Some(storageKey) || SchemeFromEvent(newValue) == old(currentScheme) ==> unchanged(this)
      ensures key == Some(storageKey) && SchemeFromEvent(newValue) != old(currentScheme) ==>
                stored == old(stored) &&
                currentScheme == SchemeFromEvent(newValue) &&
                Shown() == if IsSchemeName(currentScheme) then Render(Parse(currentScheme).value, mq) else old(Shown())
    {
      if key != Some(storageKey) {
        return;
      }
      var newScheme := SchemeFromEvent(newValue);
      if newScheme == currentScheme {
        return;
      }
      currentScheme := newScheme;
      ApplyToDOM(mq);
    }

    /**
     * The "Fix Dark / Toggle" button: the next scheme comes from the stored
     * preference, not from `currentScheme`. When the store succeeds, storage,
     * memory and display all agree on it; when it fails, nothing changes.
     */
    method OnFixDarkClick(readFails: bool, storeFails: bool, mq: Option<bool>)
      requires Valid()
      modifies this
      ensures Valid()
      ensures storeFails ==> unchanged(this)
      ensures !storeFails ==>
                var next := NextOnFixDark(ReadColorScheme(old(stored), readFails));
                stored == Persisted(Name(next)) &&
                currentScheme == Name(next) &&
                ReadColorScheme(stored, false) == next &&
                Shown() == Render(next, mq)
    {
      var storedScheme := ReadColorScheme(stored, readFails);
      var newScheme := NextOnFixDark(storedScheme);
      var ok := StoreColorScheme(Name(newScheme), storeFails);
      if ok {
        currentScheme := Name(newScheme);
        ParseName(newScheme);
        StoreThenRead(newScheme);
        ApplyToDOM(mq);
      }
    }

    /**
     * The "Fix Light / Follow OS" button: stored OS becomes Light, a stored
     * pinned scheme becomes OS (the key is removed). Same failure rule as above.
     */
    method OnFixLightClick(readFails: bool, storeFails: bool, mq: Option<bool>)
      requires Valid()
      modifies this
      ensures Valid()
      ensures storeFails ==> unchanged(this)
      ensures !storeFails ==>
                var next := NextOnFixLight(ReadColorScheme(old(stored), readFails));
                stored == Persisted(Name(next)) &&
                currentScheme == Name(next) &&
                ReadColorScheme(stored, false) == next &&
                Shown() == Render(next, mq)
    {
      var storedScheme := ReadColorScheme(stored, readFails);
      var newScheme := NextOnFixLight(storedScheme);
      var ok := StoreColorScheme(Name(newScheme), storeFails);
      if ok {
        currentScheme := Name(newScheme);
        ParseName(newScheme);
        StoreThenRead(newScheme);
        ApplyToDOM(mq);
      }
    }
  }

  /**
   * A cross-tab sequence: this tab has Dark pinned, another tab pins Light, and
   * then the toggle button is pressed here. The button starts from the shared
   * slot, so it pins Dark again.
   */
  method CrossTabThenToggle(key: string)
  {
    var c := new Controls(key, Some(Name(Dark)), false, None);
    assert c.currentScheme == Name(Dark);
    c.OtherTabWrites(Some(Name(Light)));
    c.OnStorage(Some(key), Some(Name(Light)), None);
    assert c.currentScheme == Name(Light);
    c.OnFixDarkClick(false, false, None);
    assert c.currentScheme == Name(Dark) && c.stored == Some(Name(Dark));
    assert c.Shown() == Render(Dark, None);
  }
}
