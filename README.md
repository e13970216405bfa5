# Colour-scheme preference and language-menu label

A Dafny model of the two pieces of page interactivity in `assets/js/main.js`:

- **Colour-scheme controls** (`setupColorSchemeControls`). A tri-state preference
  (Dark, Light, or follow the OS) lives in one storage key — Dark and Light are
  written as they are, OS is encoded by the key being absent — and is mirrored in
  memory as `currentScheme`, a string that a storage event from another tab may set
  to any value. The page shows the effective scheme (the OS scheme when following
  the OS) through a dark-mode class on the root element, a status text and two
  button labels. Two buttons change the preference; a storage-event handler follows
  other tabs; re-rendering also serves as the OS-change listener.
- **Expansion label** (`setupExpansionLabel`). An open/closed flag held in the
  label's `data-open` attribute and mirrored in `aria-expanded`; focus opens it,
  blur closes it, pointerdown, Enter and Space toggle it, Escape closes it when
  focus is within the label's group.

Files:

- `wrappers.dfy` — `Option`.
- `color_scheme.dfy` — module `ColorScheme`: the pure part. `Scheme`, the names,
  reading and persisting the preference, the OS and effective scheme, the scheme
  each button chooses, the display texts, and the lemmas relating them.
- `color_scheme_controls.dfy` — module `ColorSchemeControls`: class `Controls` with
  the storage slot, `currentScheme` and the four display fields, one method per
  handler, and `OtherTabWrites` for another tab's write to the shared key. Its invariant `Valid()` says the display is always a rendering of some
  preference, and of `currentScheme` itself whenever that is a valid name.
- `expansion_label.dfy` — module `ExpansionLabel`: the open-flag transition
  function `NextOpen`, its fold `Run` over event sequences with lemmas, and class
  `Label` with one method per handler.

Browser inputs are parameters: `readFails` / `storeFails` (a storage call that
throws), `mq : Option<bool>` (the dark-mode media query: `None` when the browser
has none, otherwise whether it matches), `within` (the parent matches
`:focus-within`). The storage key comes from the page's configuration and is a
constructor parameter; the scheme names are the constants "Dark", "Light", "OS".

## Model

| member | source | states |
|---|---|---|
| ColorScheme.ReadColorScheme | assets/js/main.js:85-91 | the result is not OS exactly when the read does not throw and the key holds exactly "Dark" or "Light", and then it is that scheme; an absent key, any other string or a throwing read give OS |
| ColorScheme.Persisted | assets/js/main.js:95-102 | a store that does not throw leaves the key holding `val` when `val` is "Dark" or "Light" and removes it otherwise |
| ColorScheme.OsNeverPersisted | assets/js/main.js:97-98 | no store ever writes the name "OS" into the key |
| ColorScheme.StoreThenRead | assets/js/main.js:85-102 | round trip: reading after a successful store of a scheme gives that scheme back, and the key is absent exactly for OS |
| ColorScheme.StoreThenReadAny | assets/js/main.js:85-102 | for any stored string, read-after-store gives Dark for "Dark", Light for "Light" and OS for everything else |
| ColorScheme.Parse | assets/js/main.js:111-113 | a string is accepted exactly when it is one of the three scheme names, and the scheme returned has that name |
| ColorScheme.ParseName | assets/js/main.js:111 | every scheme's name is accepted as that scheme |
| ColorScheme.OsScheme | assets/js/main.js:115 | the OS scheme is Dark exactly when a media query exists and matches, Light otherwise (never OS) |
| ColorScheme.EffectiveScheme | assets/js/main.js:115-116 | the effective scheme is never OS; it is the OS scheme when following the OS and the preference otherwise |
| ColorScheme.Render | assets/js/main.js:115-129 | the dark-mode class is on exactly when the effective scheme is Dark |
| ColorScheme.StatusNamesEffectiveScheme | assets/js/main.js:121-126 | the status text is "In {effective} Mode", followed by " (OS)" exactly when following the OS |
| ColorScheme.LabelsAnnounceNextScheme | assets/js/main.js:121-129 | the first button reads "Fix {the scheme that button pins next}"; the second reads "Fix {scheme}" when it would pin one and "Follow OS ({OS scheme})" when it would resume following the OS |
| ColorScheme.StatusIdentifiesState | assets/js/main.js:121-129 | two equal status texts come from the same preference with the same effective scheme |
| ColorScheme.NextOnFixDark | assets/js/main.js:159-164 | the toggle button never yields OS, and yields Dark exactly when the stored preference is not Dark (OS to Dark, Light to Dark, Dark to Light) |
| ColorScheme.FixDarkTwice | assets/js/main.js:163-164 | from a pinned scheme, two toggle presses restore it |
| ColorScheme.NextOnFixLight | assets/js/main.js:175-180 | the second button never yields Dark, and yields OS exactly when the stored preference is not OS (OS to Light, Dark or Light to OS) |
| ColorScheme.FixLightTwice | assets/js/main.js:179-180 | from stored OS two presses return to OS; from a pinned scheme two presses end at Light |
| ColorScheme.SchemeFromEvent | assets/js/main.js:146-147 | a storage event's new value is taken as it is, and a removed key (null) means OS |
| ColorScheme.CrossTabConverges | assets/js/main.js:142-150 | when another tab stores a scheme, the event it causes carries that scheme's name, which parses to what a read of the shared key gives |
| ColorSchemeControls.Controls.constructor | assets/js/main.js:104-105 | set-up reads the stored preference into `currentScheme` and renders it (the initial `applyToDOM` at line 189); the invariant holds |
| ColorSchemeControls.Controls.StoreColorScheme | assets/js/main.js:95-102 | returns false exactly when storage throws, and then the slot is unchanged; otherwise the slot becomes `Persisted(val)` |
| ColorSchemeControls.Controls.ApplyToDOM | assets/js/main.js:112-130 | for a valid `currentScheme` the display becomes its rendering under the current media query; for an invalid one nothing changes; also the OS-change listener (lines 134-138) |
| ColorSchemeControls.Controls.OnStorage | assets/js/main.js:142-153 | another key, or a value equal to `currentScheme`, changes nothing; otherwise `currentScheme` becomes the raw value (OS for null) and the display is re-rendered if that value is valid and kept if not; the handler does not touch storage, which for an event on the key already holds the event's new value |
| ColorSchemeControls.Controls.OnFixDarkClick | assets/js/main.js:159-171 | the next scheme is computed from the stored preference; on success storage, `currentScheme` and display all agree on it and a read returns it; on store failure nothing changes |
| ColorSchemeControls.Controls.OnFixLightClick | assets/js/main.js:175-186 | as above for the "Fix Light / Follow OS" button |
| ExpansionLabel.TogglesAreInvolutions | assets/js/main.js:32-54 | pointerdown, Enter and Space each flip the open flag, so two in a row restore it |
| ExpansionLabel.KeyDownEffect | assets/js/main.js:45-54 | Escape closes only when within the group and otherwise leaves the flag; keys other than Escape, Enter and Space change nothing |
| ExpansionLabel.RunAppend | assets/js/main.js:17-54 | handling two event sequences one after the other is handling their concatenation |
| ExpansionLabel.RunStep | assets/js/main.js:17-54 | handling one more event moves the flag of the run so far by that event's transition, the step each `Label` handler method makes |
| ExpansionLabel.LastFocusOrBlurDecides | assets/js/main.js:21-29 | whatever events came before, a final focus leaves the label open and a final blur leaves it closed |
| ExpansionLabel.OnlyOpenersOpen | assets/js/main.js:17-54 | without a focus, pointerdown, Enter or Space event, a closed label stays closed |
| ExpansionLabel.PointerDowns | assets/js/main.js:38-41 | an even number of pointerdowns leaves the flag as it was, an odd number flips it |
| ExpansionLabel.Label.constructor | assets/js/main.js:13-18 | the label gets tab index "0" when it has none, starts closed, and `aria-expanded` equals `data-open` |
| ExpansionLabel.Label.OnFocus | assets/js/main.js:21-24 | focus opens; both attributes read "true" |
| ExpansionLabel.Label.OnBlur | assets/js/main.js:26-29 | blur closes; both attributes read "false" |
| ExpansionLabel.Label.ToggleFocus | assets/js/main.js:32-35 | blurring when open and focusing when closed flips the flag, attributes kept equal |
| ExpansionLabel.Label.OnPointerDown | assets/js/main.js:38-41 | pointerdown flips the flag and always prevents the default |
| ExpansionLabel.Label.OnKeyDown | assets/js/main.js:45-54 | the flag moves as `NextOpen` says for the key; the default is prevented exactly for Enter and Space |

## Left out

- The meta theme-color update (`updateMetaThemeColorFromCSS`, lines 59-71): it copies a computed CSS custom property into a meta tag; computed styles are outside the model, so `ApplyToDOM` does not touch any meta tag.
- Event registration, page-ready wiring and the `matchMedia` feature detection and listener fallbacks (lines 2-5, 21-45, 108, 134-138, 154): each handler is a method the caller invokes; the media query's state is the `mq` parameter of each call.
- The try/catch blocks around storage (lines 86-89, 96-101): modelled as the `readFails` / `storeFails` inputs.
- The try/catch in the storage-event handler (lines 143-152): it guards no storage call, only the page updates made through `applyToDOM`; the model treats those updates as never throwing, so `OnStorage` has no failure input.
- The injected configuration object and the early returns for missing elements (lines 76-82): the names are fixed constants, the storage key a constructor parameter, and all elements are taken as present.
- ColorSchemeControls.Controls.OnStorage: does not write `stored` itself. The other tab's write to the shared key is the separate method `OtherTabWrites`, which stands for the browser and is not an operation of this page; `OnStorage` requires that an event for the key carries the value the slot already holds, so a button press after a cross-tab event starts from the other tab's value, as on the page (`CrossTabThenToggle` walks through one such sequence). An event with no key (another tab clearing all of storage) is ignored, as on the page, and the model does not tie it to the slot.
- Focus semantics of the browser: `focus()` on an already focused label or `blur()` on an unfocused one fires no event. The model lets `ToggleFocus` and Escape call the focus/blur handlers directly, which agrees with the page as long as `data-open` mirrors whether the label has focus (every handler keeps them in step). The `:focus-within` match is the `within` input.
- Cross-tab timing and races: every storage event is one sequential step.
