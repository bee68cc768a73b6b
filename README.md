# Page interaction rules of the hachiclub dental-clinic site

`script.js` wires event listeners onto a static marketing page for two dental
clinics. Without the DOM, five pieces of behaviour remain, and this project
models them in Dafny and proves properties about them:

- **Header scroll controller** (`Header`). One remembered offset,
  `lastScrollTop`. Each scroll event gives the header a solid background
  past 100px and hides it when the page moved down past 200px. The event's
  offset is then remembered.
- **Active section** (`ActiveSection`). Sections are `(id, top, height)`
  triples in document order. The current section is the last one whose
  half-open span contains `scrollY + 100`, or the empty string when none
  does. The nav items, the course sub-items and the course trigger then get
  their `active` flag. Note that the scan keeps the *last* covering section,
  not the first.
- **Dropdowns** (`Submenus`). The `show` state of the course submenu and of
  the phone submenu are two booleans. A click lands on a trigger, on a
  sub-item or elsewhere. Trigger and sub-item listeners stop propagation, so
  only clicks elsewhere reach the document-level listeners.
- **Smooth scroll** (`SmoothScroll`). An in-page anchor names an element by
  id. The scroll target is that element's `offsetTop` minus the header
  height minus 20.
- **Tracking** (`Tracking`). Analytics events are modelled as values.
  `gtag` being defined is a boolean `analytics`. The rules covered are the
  phone-number clinic labels, the clinic-site names, the events sent by a
  click on a `tel:` link, and the `source=qr` rule.

`Text` models the two JavaScript string operations the script calls:
`includes`, and `replace` with a string pattern, which replaces only the
first occurrence. Both rest on `IndexOf`, the first-occurrence search
underneath them.
`Wrappers` holds `Option`.

Stateful parts are classes, whose methods update fields and state their
new values: `HeaderController`, `NavigationBar` and `MobileMenus`. Pure
rules are functions. Each class is tied to a pure definition that the
lemmas are about (`Replay`, `IsCurrentSection`, `Step`).

## Model

| member | source | states |
|---|---|---|
| `Text.IndexOf` | script.js:525-528 | the search underneath `includes` and `replace`: the result is the first index where the pattern occurs, or -1 exactly when it occurs nowhere |
| `Text.Includes` | script.js:525-528 | `includes` holds exactly when the pattern occurs at some index |
| `Text.ReplaceFirst` | script.js:521 | a string without the pattern is unchanged; otherwise only the first occurrence is replaced, by the replacement taken literally |
| `Text.ReplacePrefix` | script.js:521 | removing a prefix pattern leaves exactly the rest, even if the rest contains the pattern again |
| `Header.LookAt` | script.js:49-64 | the look of one event; a hidden header is solid, scrolling up or staying put never hides it, and at or below 100px the header is neither solid nor hidden |
| `Header.ScrollOffset` | script.js:46 | `pageYOffset` is used unless it is 0, in which case the document's `scrollTop` is used |
| `Header.Replay` | script.js:45-66 | a run of scroll events produces one look per event |
| `Header.ReplayAt` | script.js:43-66 | in any run, event i is solid iff its offset > 100, and hidden iff its offset > 200 and > the previous event's offset (the starting memory for the first event) |
| `Header.HiddenIsSolid` | script.js:49-64 | a hidden header is always a solid one |
| `Header.UpwardShows` | script.js:58-64 | scrolling up or staying put never hides the header |
| `Header.HeaderController.constructor` | script.js:43 | `lastScrollTop` starts at 0 |
| `Header.HeaderController.Scroll` | script.js:45-66 | solid iff offset > 100; hidden iff offset > old `lastScrollTop` and > 200; afterwards `lastScrollTop` is this event's offset |
| `Header.ScrollRun` | script.js:43-67 | a controller fed a run of offsets from the start produces exactly `Replay(0, offsets)` and is left with `lastScrollTop` equal to the last offset (0 after an empty run) |
| `ActiveSection.CurrentSection` | script.js:178-189 | the result is the id of the last section whose span `[top, top+height)` contains `scrollY + 100`, or "" if no section does |
| `ActiveSection.CurrentSectionUnique` | script.js:181-189 | that characterisation determines the current section uniquely |
| `ActiveSection.LaterSectionWins` | script.js:182-189 | for every page: if two sections cover the probe and no later section does, the later of the two is current, not the earlier |
| `ActiveSection.NavigationBar.constructor` | script.js:225-226 | the active flags are set once at load, for the load-time scroll position |
| `ActiveSection.NavigationBar.UpdateActiveNavItem` | script.js:178-220 | afterwards an item or sub-item is active iff its href is `"#" + current`; the course trigger is active iff current is `basic-course` or `option-course`, whatever the sub-item loop set |
| `Submenus.Step` | script.js:299-492 | one click on the machine as written; a menu that becomes open was opened by its own trigger, and a click elsewhere leaves both closed |
| `Submenus.Run` | script.js:299-492 | a sequence of clicks on the machine as written; a menu open at the end that was closed at the start was opened by a click on its own trigger somewhere in the sequence |
| `Submenus.TriggerClicks` | script.js:299-471 | a course-trigger click flips the course menu and keeps the phone menu; a phone-trigger click flips the phone menu and closes the course menu |
| `Submenus.SubItemClicks` | script.js:316-485 | a sub-item click closes its own menu and leaves the other unchanged |
| `Submenus.ClickElsewhereClosesAll` | script.js:405-492 | after any sequence of clicks, a click elsewhere leaves both menus closed |
| `Submenus.StepsKeepingExclusion` | script.js:299-492 | a phone-trigger click always leaves at most one menu open; the other clicks keep that, except a course-trigger click while the phone menu is open |
| `Submenus.CourseTriggerBreaksExclusion` | script.js:306-312 | from both closed, a phone-trigger click then a course-trigger click leaves both open |
| `Submenus.IntendedStep` | script.js:306-312 | the intended course-trigger click toggles the course menu and closes the phone menu; every other click behaves as written |
| `Submenus.IntendedRun` | script.js:306-312 | a sequence of clicks on the intended machine; again only a menu's own trigger opens it |
| `Submenus.IntendedRunExclusive` | script.js:306-312 | with the intended course trigger, no sequence of clicks from a state with at most one menu open ever opens both |
| `Submenus.StepsAgree` | script.js:306-312 | the intended and the written machine differ exactly on a course-trigger click while the phone menu is open |
| `Submenus.MobileMenus.constructor` | script.js:292-296 | the two submenus as found at set-up; neither has `show` (the script does not set it, so this is the markup assumed under Left out) |
| `Submenus.MobileMenus.CourseTriggerClick` | script.js:299-313 | suppresses the default; flips the course menu; the phone menu is unchanged |
| `Submenus.MobileMenus.PhoneTriggerClick` | script.js:457-471 | suppresses the default; flips the phone menu; the course menu is closed |
| `Submenus.MobileMenus.CourseSubItemClick` | script.js:318-325 | does not suppress the default; the course menu is closed and the phone menu unchanged |
| `Submenus.MobileMenus.PhoneSubItemClick` | script.js:476-484 | does not suppress the default (the dial goes ahead); the phone menu is closed and the course menu unchanged |
| `Submenus.MobileMenus.DocumentClick` | script.js:405-492 | each menu stays open only if it was open and its trigger contains the click target |
| `Submenus.MobileMenus.Click` | script.js:299-492 | dispatching a click as it bubbles changes the state exactly as `Step`; the default is suppressed exactly for trigger clicks |
| `SmoothScroll.FindById` | script.js:80 | the index of the first element with the id, or none exactly when no element has it |
| `SmoothScroll.Lookup` | script.js:80 | `querySelector(href)`: an element is found iff the href is `#` followed by a non-empty id that some element has, and the found element is one whose `"#" + id` is the href |
| `SmoothScroll.AnchorClick` | script.js:76-91 | a bare `#` scrolls nothing; a scroll happens iff some element has the named id, and then it goes to the first such element's `offsetTop - headerHeight - 20`; the default is suppressed exactly when it scrolls |
| `SmoothScroll.SubItemScroll` | script.js:360-370 | a course sub-item scrolls only to an element whose `"#" + id` is its href, at `offsetTop - headerHeight - 20` |
| `SmoothScroll.SubItemAgreesWithAnchor` | script.js:360-370 | for any href, the sub-item listener and the anchor listener aim at the same position |
| `SmoothScroll.AnchorReachesFirst` | script.js:80-89 | the anchor `"#" + id` of the first element with a non-empty id scrolls to that element and suppresses the default |
| `Tracking.PhoneNumber` | script.js:521 | for an href starting with `tel:` the number is the rest of the href; an href without `tel:` is the number unchanged |
| `Tracking.PhoneClinic` | script.js:525-534 | first match wins: main clinic iff the number contains 092-504-2323; Sakuranamiki iff it does not but contains 092-404-2098; general iff it contains neither |
| `Tracking.ClinicPhoneEvent` | script.js:520-543 | the event reports the href without its first `tel:`, with the label and clinic name of that number's clinic |
| `Tracking.ClinicLabel` | script.js:525-534 | the `event_label` of each clinic: `hachi_main`, `hachi_sakuranamiki` or `general`; each label belongs to exactly one clinic |
| `Tracking.ClinicName` | script.js:525-534 | the `clinic_name` of each clinic: はち歯科医院, 桜並木はち歯科医院 or 一般; each name belongs to exactly one clinic |
| `Tracking.TelLinkLabel` | script.js:521-534 | for `tel:n` the reported number is n, and the label is `hachi_main`, `hachi_sakuranamiki` or `general` by the first-match rule on n |
| `Tracking.KnownNumbers` | script.js:525-530 | `tel:092-504-2323` is labelled `hachi_main` and `tel:092-404-2098` is labelled `hachi_sakuranamiki` |
| `Tracking.TelLinkClick` | script.js:146-549 | with analytics a tel click sends `phone_click`/`header_phone`, then `phone_click`/`mobile_nav_phone` for a phone-submenu button only, then the clinic event, category `clinic_contact`, labelled with the number's clinic label; the earlier events have category `contact`; without analytics it sends nothing |
| `Tracking.ClinicSiteName` | script.js:501 | a clinic-site href containing `sakuranamiki` is 桜並木はち歯科医院, any other is はち歯科医院 |
| `Tracking.ClinicSiteClick` | script.js:500-510 | with analytics one `clinic_website_click` event, category `clinic_selection`, labelled with the site's clinic name; otherwise none |
| `Tracking.QueryGet` | script.js:552-554 | the value of the first parameter with the name, or none exactly when no parameter has it |
| `Tracking.ClinicOrUnknown` | script.js:561 | a missing or empty clinic parameter reads as `unknown` |
| `Tracking.QrAccess` | script.js:552-577 | at most one event; `qr_code_access` is sent iff analytics is on and `source` is `qr`, and it has category `traffic_source` and is labelled with the clinic or `unknown`; the delayed scroll is scheduled iff `source` is `qr` and `clinic` is present and non-empty |
| `Tracking.QrScenario` | script.js:556-576 | `?source=qr&clinic=sakuranamiki` sends exactly one `qr_code_access` labelled `sakuranamiki` and schedules the scroll |
| `Tracking.ScrollImpliesLabelledEvent` | script.js:556-576 | whenever the scroll is scheduled, the single event carries the clinic parameter itself |

## Findings

| source | as written | input that shows it | evidently intended | confidence | as-written member | corrected member |
|---|---|---|---|---|---|---|
| script.js:306-312 | the course trigger's "close the other submenus" pass selects `.mobile-nav-submenu:not(.show)`, i.e. only menus that are already closed, so it never closes an open one | from both menus closed: click the phone trigger, then the course trigger; both are then open | close the other open submenus, as the comment on that pass says and as the phone trigger does at script.js:465-470, so that at most one menu is open | medium, not executed (the pass is a no-op for certain; whether the corrected selector would reach the phone menu depends on its HTML classes) | `Submenus.CourseTriggerBreaksExclusion` | `Submenus.IntendedRunExclusive` |

`Submenus.MobileMenus` and `Submenus.Step` keep the behaviour as written,
because they model the deployed code. `Submenus.IntendedStep` is the
corrected machine. `Submenus.StepsAgree` proves that the two differ only
in the case above.

## Left out

- DOM querying, inline style writes and the injected `<style>` texts (script.js:27-38, 122-143, 243-288, 614-631): presentation only.
- The mobile hover-reset workaround with its 100/150/200/400 ms timers and `blur` calls (script.js:321-357, 373-401, 409-419, 423-446): it depends on timers and a rendering quirk.
- The reveal animation and lazy-image observers (script.js:96-119, 581-601): browser observer APIs. They only ever add the `animate` and `loaded` classes.
- `gtag` and `console.log` are not called. Events are values, and `analytics` stands for `typeof gtag !== 'undefined'`.
- The external-link rewrite (script.js:647-654): its behaviour is defined by CSS attribute-selector matching.
- The global error logger, touch-device detection, the service-worker stub, and the empty resize and keydown listeners (script.js:603-645): no-ops or capability probes.
- The initial `show` state of the two submenus comes from the page's markup. The script never sets it at load. The model assumes the markup gives neither submenu `show`.
- The early returns when a submenu element or its trigger is missing (script.js:296, 454) are not modelled. The model assumes all four elements exist, with a single course submenu.
- `document.querySelector` is modelled only for `#id` selectors, as a first-match id lookup. The bare `#`, which throws in the sub-item listener, scrolls nothing. Any href of another shape names no element. CSS escaping in ids is not modelled.
- `window.scrollTo` is not modelled: no clamping, no animation. The model yields the requested top.
- The 1000 ms timer before the QR scroll, and its check that `clinic-selection` exists (script.js:570-575), become the flag `scrollScheduled`.
- `URLSearchParams` parsing and percent-decoding of `location.search` are not modelled. The parameters are given as decoded pairs in order.
- Scroll offsets and element positions are integers. The browser may report fractional values.
- `this.href` is taken as the link's href string. URL resolution and serialisation by the browser are not modelled.
- `Submenus.MobileMenus.Click` reports only the submenu listeners' `preventDefault`. A course sub-item that is also an in-page anchor additionally gets the anchor listener of `SmoothScroll.AnchorClick`.
