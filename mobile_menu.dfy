/** The mobile navigation menu (script.js, `toggleMenu` and the click and resize
    listeners). Its state is the `open` class of `#siteNav` and the
    `aria-expanded` attribute of the `.menu-toggle` button; every transition needs
    both elements to be present. */
module MobileMenu {

  datatype MenuState = MenuState(open: bool, expanded: string)

  /** Widths above this are the desktop layout. */
  const Breakpoint := 768

  /** `String(b)` of a JavaScript boolean. */
  function BoolText(b: bool): string { if b then "true" else "false" }

  /** The button's `aria-expanded` tells the truth about the panel. */
  predicate Synced(m: MenuState) { m.expanded == BoolText(m.open) }

  /** `toggleMenu()`. */
  function Toggle(m: MenuState, navPresent: bool, buttonPresent: bool): MenuState {
    if !navPresent || !buttonPresent then m
    else MenuState(!m.open, BoolText(!m.open))
  }

  /** A click whose target lies inside a `#siteNav a` link (`inNavLink`). */
  function LinkClick(m: MenuState, inNavLink: bool, navPresent: bool, buttonPresent: bool): MenuState {
    if inNavLink && navPresent && buttonPresent && m.open then MenuState(false, "false") else m
  }

  /** A `resize` event at viewport width `width`. */
  function Resize(m: MenuState, width: int, navPresent: bool, buttonPresent: bool): MenuState {
    if width > Breakpoint && navPresent && buttonPresent then MenuState(false, "false") else m
  }

  /** Toggling without both elements does nothing; with both it flips the panel
      and leaves `aria-expanded` equal to "true" exactly when the panel is open,
      whatever the attribute said before. */
  lemma ToggleFlipsAndSyncs(m: MenuState, navPresent: bool, buttonPresent: bool)
    ensures var r := Toggle(m, navPresent, buttonPresent);
      (!navPresent || !buttonPresent ==> r == m) &&
      (navPresent && buttonPresent ==>
         r.open == !m.open && Synced(r) && (r.expanded == "true" <==> r.open))
  {
  }

  /** Toggling twice from a synced state returns to it. */
  lemma ToggleTwice(m: MenuState, navPresent: bool, buttonPresent: bool)
    requires Synced(m)
    ensures Toggle(Toggle(m, navPresent, buttonPresent), navPresent, buttonPresent) == m
  {
  }

  /** A click inside a navigation link closes an open menu (when both elements
      exist) and touches nothing otherwise, a closed menu included. */
  lemma LinkClickCloses(m: MenuState, inNavLink: bool, navPresent: bool, buttonPresent: bool)
    ensures var r := LinkClick(m, inNavLink, navPresent, buttonPresent);
      (inNavLink && navPresent && buttonPresent && m.open ==> !r.open && r.expanded == "false") &&
      (!m.open || !inNavLink || !navPresent || !buttonPresent ==> r == m)
  {
  }

  /** A resize wider than the breakpoint with both elements present leaves the
      menu closed and `aria-expanded="false"`, whatever the state before; a resize
      to the breakpoint or narrower, or one without either element, changes nothing. */
  lemma ResizeCloses(m: MenuState, width: int, navPresent: bool, buttonPresent: bool)
    ensures var r := Resize(m, width, navPresent, buttonPresent);
      (width > Breakpoint && navPresent && buttonPresent ==> !r.open && r.expanded == "false" && Synced(r)) &&
      (width <= Breakpoint ==> r == m) &&
      (!navPresent || !buttonPresent ==> r == m)
  {
  }

  /** Every transition keeps `aria-expanded` in step with the panel. */
  lemma TransitionsKeepSynced(m: MenuState, inNavLink: bool, width: int, navPresent: bool, buttonPresent: bool)
    requires Synced(m)
    ensures Synced(Toggle(m, navPresent, buttonPresent))
    ensures Synced(LinkClick(m, inNavLink, navPresent, buttonPresent))
    ensures Synced(Resize(m, width, navPresent, buttonPresent))
  {
  }
}
