# Portfolio site component state, modelled in Dafny

A model of the four pieces of component state logic in a single-page
personal portfolio site written in React:

- **Header** (`header.dfy`): the navigation bar. On each scroll event it sets
  a "scrolled" flag (`scrollY > 50`) and scans the sections `hero, about,
  skills, projects, experience, contact` in order for the first one whose
  bounding box straddles the line 100 units below the viewport top; when
  none does, the active section is kept. A navigation click selects its
  section and closes the mobile menu; the menu button flips the menu; the
  language toggle switches `en` to `ar` (anything else to `en`) and sets the
  text direction to right-to-left exactly for `ar`. The page layout is a
  partial map from element id to rectangle, so a missing element is a
  missing key; the hero section is looked up under the empty id. A browser
  never finds an element under the empty id; the model allows the empty id
  as a key (no lemma except `HeroNeverNewlySelected` assumes that the
  empty id is absent), and `HeroNeverNewlySelected`
  states what follows on pages without it.
- **Hero** (`hero.dfy`): the rotating role line, an index into eleven role
  titles advanced by `(prev + 1) % 11` on every tick of a 3000 ms interval
  that is cleared on unmount. A ghost tick counter lets the object invariant
  state the closed form: after k ticks the index is `k mod 11`.
- **Contact** (`contact.dfy`): the contact form's fields `{name, email,
  message}`, the `isSubmitting` flag, the per-field change handler and the
  submit routine. The external send is a log of invocations plus an outcome
  (`Delivered` or `Failed`) given to the model; notifications are a log of
  toasts. Submit is split at its `await`: `StartSubmit` sets the flag and
  invokes the send once with the current values, `FinishSubmit` raises the
  success or error toast, clears the fields on success or keeps them on
  failure, and always resets the flag. The only guard against a second
  submission is the disabled submit button, modelled by `PressSubmit`.
- **Projects** (`projects.dfy`): the gallery's single `expandedIndex`
  (`null` or one card), the toggle handler, the two-line clamp, the
  "Read more / Read less" label, the rule that the toggle appears when the
  description split on single spaces has more than 20 fields (modelled by
  a faithful `Split` with its inverse `Join`), and the live-demo button rule.

`wrappers.dfy` holds the `Option` type used for JavaScript's `null` and
missing values.

Notes on the code:
- the active section starts as `hero`; there is no separate "none" value;
- `handleSubmit` performs no validation of its own (required fields and the
  email format are left to the browser's form attributes) and does not check
  `isSubmitting`; only the disabled button prevents a second send;
- the only submission state is the `isSubmitting` flag, together with the
  field values and the toasts raised.

## Model

| member | source | states |
|---|---|---|
| `Header.FirstMatch` | src/components/Header.tsx:32-36 | with `Matches` (the section's element exists and `Straddles`: top at most 100 and bottom at least 100), the result is the position of a matching section and every earlier one does not match; none is returned exactly when no section matches |
| `Header.ScanActive` | src/components/Header.tsx:32-40 | the scroll handler's new active section: the previous value or one of the six sections, nothing else |
| `Header.ScanSelectsFirstMatch` | src/components/Header.tsx:26-39 | if section k straddles the line and no earlier section does, the scan selects section k |
| `Header.ScanResultStraddles` | src/components/Header.tsx:32-39 | conversely, a newly selected section straddles the line and no earlier section does |
| `Header.ScanRetainsWhenNoneMatches` | src/components/Header.tsx:38-40 | when no section straddles the line, the previous active section is kept |
| `Header.EarlierSectionWins` | src/components/Header.tsx:26-36 | when two sections straddle the line, the later one is never selected |
| `Header.MissingElementNeverSelected` | src/components/Header.tsx:28-33 | a section whose element is missing under its lookup id `ElementId` (the empty id for hero, its own id otherwise) is never newly selected |
| `Header.HeroNeverNewlySelected` | src/components/Header.tsx:28-33 | on a page with no element under the empty id (as in any browser), a scroll never newly selects the hero section |
| `Header.ScanStaysInSections` | src/components/Header.tsx:26-39 | starting from a listed section, the scan result is a listed section |
| `Header.ToggleLanguage` | src/components/Header.tsx:15-19 | the new language is `ar` exactly when the old one was `en`, otherwise `en`; direction is right-to-left exactly when the new language is `ar` |
| `Header.ToggleLanguageTwice` | src/components/Header.tsx:15-19 | from `en` or `ar`, two toggles restore the language |
| `Header.NavBar.constructor` | src/components/Header.tsx:11-13 | menu closed, not scrolled, active section `hero` |
| `Header.NavBar.HandleScroll` | src/components/Header.tsx:22-41 | scrolled exactly when `scrollY > 50` (50 gives false); active section becomes the scan result; menu unchanged; the active section stays one of the six |
| `Header.NavBar.HandleNavClick` | src/components/Header.tsx:56-59 | the active section becomes the clicked key and the menu is closed, whatever the prior state |
| `Header.NavBar.ToggleMenu` | src/components/Header.tsx:128 | the menu flag is negated, nothing else changes |
| `Header.ToggleMenuTwice` | src/components/Header.tsx:128 | two presses of the menu button restore the menu flag |
| `Hero.NextRole` | src/components/Hero.tsx:35 | the next index stays in range and is the successor, or 0 after the last role |
| `Hero.RoleAfter` | src/components/Hero.tsx:33-36 | the index after any number of ticks from mount is within the role list |
| `Hero.RoleAfterClosedForm` | src/components/Hero.tsx:9-36 | after k ticks from mount the index is k mod 11 |
| `Hero.RoleAfterPeriodic` | src/components/Hero.tsx:35 | eleven more ticks show the same role |
| `Hero.RoleRotator.constructor` | src/components/Hero.tsx:9 | on mount the index is 0 and the interval runs |
| `Hero.RoleRotator.Displayed` | src/components/Hero.tsx:162 | the displayed title always exists in the role list |
| `Hero.RoleRotator.Tick` | src/components/Hero.tsx:34-36 | while the interval runs a tick advances the index by one modulo 11; after teardown it changes nothing; the index equals ticks mod 11 |
| `Hero.RoleRotator.Teardown` | src/components/Hero.tsx:37 | the interval is cleared and the index kept |
| `Contact.Update` | src/components/Contact.tsx:83-88 | the named field takes the new value and every other field is unchanged |
| `Contact.ParamsOf` | src/components/Contact.tsx:58-62 | the send receives `from_name`, `from_email`, `message` equal to the three field values |
| `Contact.Settled` | src/components/Contact.tsx:66-77 | on success every field is empty; on failure every field keeps its value |
| `Contact.ToastFor` | src/components/Contact.tsx:66-77 | the notification is destructive exactly on failure |
| `Contact.RetryResendsSameMessage` | src/components/Contact.tsx:72-77 | after a failure the next submit sends the same message |
| `Contact.DeliveredClearsMessage` | src/components/Contact.tsx:71 | after a success the form holds an empty message |
| `Contact.ContactForm.constructor` | src/components/Contact.tsx:21-27 | all three fields empty, not submitting, nothing sent or shown |
| `Contact.ContactForm.HandleChange` | src/components/Contact.tsx:83-88 | only the named field changes; flag, sends and toasts untouched |
| `Contact.ContactForm.StartSubmit` | src/components/Contact.tsx:50-64 | the flag is set and the send is invoked once with the current field values; fields unchanged |
| `Contact.ContactForm.FinishSubmit` | src/components/Contact.tsx:66-80 | one success or error toast; fields cleared on success, kept on failure; the flag is false whatever the outcome; no further send |
| `Contact.ContactForm.HandleSubmit` | src/components/Contact.tsx:50-81 | exactly one send with the values at submit time, one toast, fields settled by the outcome, flag reset |
| `Contact.ContactForm.PressSubmit` | src/components/Contact.tsx:234-237 | with `SubmitEnabled` (the button is enabled exactly when `isSubmitting` is false), a press starts a submission exactly when none is in flight; a press on the disabled button sends nothing |
| `Contact.PressTwiceSendsOnce` | src/components/Contact.tsx:237 | two presses while idle invoke the send once in all and leave the submission in flight |
| `Projects.Split` | src/components/Projects.tsx:157 | splitting gives at least one field and no field contains the separator |
| `Projects.JoinSplit` | src/components/Projects.tsx:157 | joining the fields with the separator gives the description back |
| `Projects.SplitLength` | src/components/Projects.tsx:157 | the number of fields is the number of separators plus one |
| `Projects.SplitConcat` | src/components/Projects.tsx:157 | splitting text around a separator gives the fields of the text before it followed by the fields of the text after it |
| `Projects.AdjacentSeparators` | src/components/Projects.tsx:30 | two adjacent separators, anywhere in a string (such as the double space in the second description), yield one empty field between the fields around them |
| `Projects.DoubleSpaceGivesEmptyField` | src/components/Projects.tsx:30 | example: `"a  b"` splits into `"a"`, `""`, `"b"` |
| `Projects.ShowToggleBySpaces` | src/components/Projects.tsx:157 | the toggle predicate `ShowToggle` (more than 20 fields after splitting on single spaces) holds exactly when the description holds at least 20 spaces |
| `Projects.ToggleExpanded` | src/components/Projects.tsx:159-163 | the result is null exactly when card i was expanded, otherwise card i |
| `Projects.ToggleTwice` | src/components/Projects.tsx:159-163 | two clicks on the same card return to no card expanded, unless that card started expanded |
| `Projects.AtMostOneExpanded` | src/components/Projects.tsx:152 | with the clamp predicate `Clamped` (card i is clamped unless it is the expanded card), at most one card is unclamped |
| `Projects.ToggleLabel` | src/components/Projects.tsx:166 | the label is "Read less" exactly when the card is expanded, "Read more" exactly when it is clamped |
| `Projects.ShowLive` | src/components/Projects.tsx:130 | the live button's condition: a link is present and is not the empty string; the `!== ""` test adds nothing to the truthiness test |
| `Projects.Gallery.constructor` | src/components/Projects.tsx:15 | no card is expanded on mount |
| `Projects.Gallery.ClickToggle` | src/components/Projects.tsx:157-163 | the expanded index is toggled; the expanded card is always one that shows the toggle |

## Left out

- Scroll-listener registration and removal on `window`, and the first call
  of the handler on mount: the model gives the handler's effect per call.
- `Header.NavBar.HandleNavClick` requires the key to be a navigation key,
  since the only callers are the navigation links; the handler itself would
  accept any string.
- Scroll offsets and bounding boxes are whole numbers; the browser's are
  floating point, and the comparisons are the same.
- The language toggle's effect on the translation library and on the
  document is returned as a value; its button is commented out in the
  markup, so nothing in the page calls it.
- Timer timing: the rotator counts ticks; the 3000 ms period and the fade
  transition are not modelled.
- The email transport, its service, template and user keys and its network
  behaviour: the send is an outcome given to the model.
- Email-format and required-field validation: done by the browser's form
  attributes, not by this code.
- Interleavings of field edits with an in-flight submission are possible
  through `StartSubmit`/`FinishSubmit`, but no property about them is stated.
- Toast rendering, translation of toast texts (kept as translation keys),
  the theme context, the CV download and all markup.
- All animation: motion variants, stagger, delays, durations, progress bars.
- The reveal-once visibility latch: it lives inside a third-party hook whose
  code is not part of this model.
- The translation table and its library setup, and the static lists of
  skills, projects, experience and stats.
