# Portfolio page script: a verified model

This project models the interactive core of the portfolio page's `script.js`:
the scroll-driven highlighting of the navigation link, the mobile menu and its
`aria-expanded` attribute, the light/dark theme with its stored preference and
toggle button, and the header shadow.

The page is the class `Script.Page`. Its fields are the DOM state the script
reads and writes:

- the `section[id]` elements, with their offsets and heights;
- the `href` and `active` class of each `.nav-links a` link;
- the `open` class of `#siteNav` and `aria-expanded` of `.menu-toggle`;
- the root `data-theme`, the stored `theme` preference, and the `aria-pressed`,
  `aria-label` and `title` of `#themeToggle`;
- the `scrolled` class of `.header`.

Optional elements are presence flags. The flags for `#siteNav`, `.menu-toggle`
and `#themeToggle` are variables, because the script looks those elements up on
every call; `.header`, the sections and the links are captured once, so their
presence and their lists are fixed. The event handlers are methods of the
class. Each method is specified by a pure rule of its component:

- `ActiveLink.Scan` for `setActive`;
- `MobileMenu.Toggle`, `LinkClick` and `Resize` for the menu;
- `Theme.Apply`, `Toggle`, `Init` and `Resync` for the theme;
- `HeaderShadow.Update` for the header.

The lemmas beside each rule prove what the page promises.

Inputs the browser supplies are parameters:

- the scroll offset and the viewport width;
- whether a click landed inside a `#siteNav a` link;
- whether a storage read or write succeeds;
- whether `matchMedia` exists and whether the light colour-scheme query matches.

Behaviours of the code that are easy to misstate:

- The theme is not limited to "light" and "dark". `initTheme` applies any
  readable non-empty stored string verbatim; when the read fails the stored
  value is ignored (`Theme.InitialThemeChoice`, `Theme.InitEffects`).
- Toggling is an involution only on "light" and "dark". Any other value,
  an absent attribute included, goes to "light" (`Theme.ToggleTwiceRestores`).
- The root attribute and the stored value are guaranteed to agree after an
  application only when the storage write succeeds; a failed write keeps the old
  stored value (`Theme.ApplyEffects`).
- "At most one active link" holds after any scroll position inside some section's
  window. A position inside no window keeps the markers as they were, so the
  property is preserved, not created (`ActiveLink.ScanKeepsAtMostOne`,
  `ActiveLink.MatchLeavesAtMostOne`).
- With both `#siteNav` and `.menu-toggle` present, a resize wider than 768 closes
  the menu and writes `aria-expanded="false"` whether or not it was open
  (`MobileMenu.ResizeCloses`).
- The toggle button's label announces the theme the next toggle produces only
  for "light" and "dark". For any other root value it announces dark mode, but
  the toggle goes to light (`Theme.LabelAnnouncesToggle`).

## Model

| member | source | states |
|---|---|---|
| `ActiveLink.QueryLink` | script.js:19 | the link lookup yields the first link in document order whose href is `#<id>`, and None exactly when no link has that href |
| `ActiveLink.Scan` | script.js:15-24 | the loop over sections keeps one marker per link |
| `ActiveLink.LastMatchWins` | script.js:15-24 | when section i is the last whose window `[offsetTop-100, offsetTop-100+offsetHeight)` holds y, the markers are all cleared except that section's link |
| `ActiveLink.OnlyLinkOfLastMatchActive` | script.js:19-22 | link k is active iff it is the first link pointing at the last matching section; with no such link, no link is active |
| `ActiveLink.NoMatchKeepsMarkers` | script.js:15-24 | a position in no section's window leaves every marker unchanged |
| `ActiveLink.ScanKeepsAtMostOne` | script.js:20-22 | at most one active link before a scroll implies at most one after |
| `ActiveLink.MatchLeavesAtMostOne` | script.js:20-22 | a position inside some section's window leaves at most one active link, whatever came before |
| `ActiveLink.WindowExample` | script.js:16-20 | a section at 500 with height 300 activates its link at 450 and not at 750 |
| `MobileMenu.ToggleFlipsAndSyncs` | script.js:63-69 | without the panel or the button nothing changes; with both `open` flips and `aria-expanded` is "true" exactly when open |
| `MobileMenu.ToggleTwice` | script.js:63-69 | two toggles from a synced state restore it |
| `MobileMenu.LinkClickCloses` | script.js:74-84 | a click in a nav link closes an open menu with `aria-expanded="false"`; a closed menu, a click elsewhere or a missing element changes nothing |
| `MobileMenu.ResizeCloses` | script.js:87-94 | width > 768 with both elements leaves the menu closed and `aria-expanded="false"`; width <= 768, or a missing `#siteNav` or `.menu-toggle`, changes nothing |
| `MobileMenu.TransitionsKeepSynced` | script.js:63-94 | toggle, link click and resize all keep `aria-expanded` in step with `open` |
| `Theme.NextThemeCases` | script.js:122 | the toggle sends "light" to "dark" and every other value, absent included, to "light" |
| `Theme.ToggleTwiceRestores` | script.js:121-124 | two toggles restore the value exactly when it is "light" or "dark" |
| `Theme.ApplyEffects` | script.js:100-118 | applying t sets `data-theme` to t and stores t when storage succeeds (else keeps the stored value); with a button, `aria-pressed` is "true" iff t is "dark" and label and title are "Cambiar a modo claro" for dark, "Cambiar a modo oscuro" otherwise; without one the button state is untouched |
| `Theme.ApplyIdempotent` | script.js:114-118 | applying t twice equals applying it once (with either storage outcome counted) |
| `Theme.ToggleEffects` | script.js:121-124 | toggling leaves "light" or "dark" on the root, the opposite of a light or dark start, and two toggles from light or dark restore the root |
| `Theme.LabelAnnouncesToggle` | script.js:100-124 | the button's label names the theme the next toggle yields exactly for "light" and "dark" roots |
| `Theme.InitialThemeChoice` | script.js:129-135 | a non-empty stored value is chosen verbatim; otherwise "light" iff `matchMedia` exists and prefers light, else "dark" |
| `Theme.InitEffects` | script.js:129-135 | initialising puts the initial choice (from the readable stored value, or nothing when the read fails) on the root; a readable non-empty preference lands there verbatim and the stored value stays as it was; otherwise the root becomes light or dark; the button ends in step with the root |
| `Theme.ResyncHarmless` | script.js:137-140 | the DOMContentLoaded resync leaves the button describing the root, and is a no-op after an application |
| `HeaderShadow.UpdateFollowsThreshold` | script.js:144-148 | with a header, `scrolled` holds iff the offset is at least 2, boundary included; without one nothing changes |
| `HeaderShadow.UpdateIdempotent` | script.js:144-148 | updating twice at one offset is updating once |
| `Script.Page.constructor` | script.js:6-7 | the page starts from the markup: sections, link hrefs and active classes, menu, theme and header state |
| `Script.Page.SetActive` | script.js:13-25 | the link markers after the loop are `ActiveLink.Scan` of the markers before |
| `Script.Page.ToggleMenu` | script.js:63-69 | the menu state becomes `MobileMenu.Toggle` of the old one; nothing else changes |
| `Script.Page.OnClick` | script.js:74-84 | the menu state becomes `MobileMenu.LinkClick` of the old one |
| `Script.Page.OnResize` | script.js:87-94 | the menu state becomes `MobileMenu.Resize` of the old one |
| `Script.Page.UpdateThemeToggleUI` | script.js:100-108 | the button attributes become those of `Theme.UpdateToggleUI`; root and storage are untouched |
| `Script.Page.ApplyTheme` | script.js:114-118 | the theme state becomes `Theme.Apply` of the old one |
| `Script.Page.ToggleTheme` | script.js:121-124 | the theme state becomes `Theme.Toggle` of the old one |
| `Script.Page.InitTheme` | script.js:129-135 | the theme state becomes `Theme.Init` of the old one |
| `Script.Page.OnDomContentLoaded` | script.js:137-140 | the theme state becomes `Theme.Resync` of the old one |
| `Script.Page.UpdateHeaderShadow` | script.js:144-148 | the `scrolled` class becomes `HeaderShadow.Update` of the old one |
| `Script.Page.OnScroll` | script.js:149 | a scroll event runs `setActive` (registered at line 27) and then the header update |

## Left out

- `copyText` (the clipboard write and the label restored after 1400 ms): asynchronous and timed, which a sequential model cannot state.
- `downloadPDF`: a single call to the browser's print dialog.
- The reveal animation (an IntersectionObserver adds `visible` and stops observing, or all elements become visible at once without one): a thin wrapper over a browser API.
- Listener registration, element lookups, `localStorage` and `matchMedia`: presence flags, storage outcomes and preference flags stand in for them. The click target's `closest('#siteNav a')` test is the boolean `inNavLink`.
- `ActiveLink.QueryLink`: section ids are matched literally against `href`, for every id. In the browser a double quote or a line break in an id usually makes the selector at script.js:19 invalid, so the lookup throws before the window test and the remaining sections are abandoned; a crafted id can instead form a valid selector that matches another link, even one outside `.nav-links`, which line 22 then marks and line 21 never clears; a backslash starts a CSS escape. The model captures neither the exception, nor such selectors, nor the escaping.
- Fractional scroll offsets, sizes and widths: all are integers. The header's `scrollY || scrollTop` fallback and `setActive`'s `pageYOffset` are one offset input.
- When the script's top-level code runs: the model does not fix the order of events. It does not require `InitTheme` and the first `UpdateHeaderShadow` to run at script evaluation or `SetActive` to run at `load`. Each handler is a method that a caller invokes.
