/** The page's DOM state as script.js sees it, and the script's event handlers as
    methods that change it in place. Element lookups become presence flags, the
    window's scroll offset and width, storage outcomes and the colour-scheme
    media query become parameters. Each handler is specified by the pure rule of
    its component (ActiveLink, MobileMenu, Theme, HeaderShadow). */
module Script {
  import opened Wrappers
  import ActiveLink
  import MobileMenu
  import Theme
  import HeaderShadow

  /** A `.nav-links a` element in the markup. */
  datatype NavLink = NavLink(href: string, active: bool)

  class Page {
    /** The `section[id]` elements in document order, with their current layout. */
    var sections: seq<ActiveLink.Section>
    /** The `href` attributes of the `.nav-links a` elements, in document order. */
    const hrefs: seq<string>
    /** Whether each of those links has the `active` class. */
    const active: array<bool>

    /** Whether `#siteNav` and `.menu-toggle` exist. The handlers look them up on
        every call, so these are variables that may change between events. */
    var navPresent: bool
    var menuButtonPresent: bool
    /** The `open` class of `#siteNav` and `aria-expanded` of `.menu-toggle`. */
    var menuOpen: bool
    var ariaExpanded: string

    /** Whether `#themeToggle` exists; looked up on every call, like the menu's
        elements, so a button added after `initTheme` ran is seen by the resync. */
    var themeButtonPresent: bool
    /** `data-theme` on the document element (None when the attribute is absent). */
    var dataTheme: Option<string>
    /** The stored preference under the key "theme" (None when nothing is stored). */
    var storedTheme: Option<string>
    /** `aria-pressed`, `aria-label` and `title` of `#themeToggle`. */
    var ariaPressed: string
    var ariaLabel: string
    var title: string

    /** Whether `.header` existed when the script ran (it is looked up once), and
        its `scrolled` class. */
    const headerPresent: bool
    var scrolled: bool

    /** One marker per link. It reads only `const` fields, so once the constructor
        establishes it, no method can break it. */
    ghost predicate Valid()
      reads this
    {
      active.Length == |hrefs|
    }

    /** The menu's part of the state. */
    function Menu(): MobileMenu.MenuState
      reads this
    {
      MobileMenu.MenuState(menuOpen, ariaExpanded)
    }

    /** The theme's part of the state. */
    function ThemeView(): Theme.ThemeState
      reads this
    {
      Theme.ThemeState(dataTheme, storedTheme, ariaPressed, ariaLabel, title)
    }

    /** The page as the markup and the browser hand it to the script. */
    constructor (sections: seq<ActiveLink.Section>, links: seq<NavLink>,
                 navPresent: bool, menuButtonPresent: bool, menu: MobileMenu.MenuState,
                 themeButtonPresent: bool, theme: Theme.ThemeState,
                 headerPresent: bool, scrolled: bool)
      ensures Valid() && fresh(active)
      ensures this.sections == sections
      ensures hrefs == seq(|links|, i requires 0 <= i < |links| => links[i].href)
      ensures active[..] == seq(|links|, i requires 0 <= i < |links| => links[i].active)
      ensures this.navPresent == navPresent && this.menuButtonPresent == menuButtonPresent
      ensures Menu() == menu
      ensures this.themeButtonPresent == themeButtonPresent && ThemeView() == theme
      ensures this.headerPresent == headerPresent && this.scrolled == scrolled
    {
      this.sections := sections;
      hrefs := seq(|links|, i requires 0 <= i < |links| => links[i].href);
      active := new bool[|links|](i requires 0 <= i < |links| => links[i].active);
      this.navPresent, this.menuButtonPresent := navPresent, menuButtonPresent;
      menuOpen, ariaExpanded := menu.open, menu.expanded;
      this.themeButtonPresent := themeButtonPresent;
      dataTheme, storedTheme := theme.root, theme.stored;
      ariaPressed, ariaLabel, title := theme.ariaPressed, theme.ariaLabel, theme.title;
      this.headerPresent, this.scrolled := headerPresent, scrolled;
    }

    /** `setActive` at vertical scroll position `y`. */
    method SetActive(y: int)
      requires Valid()
      modifies active
      ensures active[..] == ActiveLink.Scan(old(active[..]), sections, hrefs, y)
    {
      var i := 0;
      while i < |sections|
        invariant 0 <= i <= |sections|
        invariant active[..] == ActiveLink.Scan(old(active[..]), sections[..i], hrefs, y)
      {
        var sec := sections[i];
        var top := sec.offsetTop - ActiveLink.LeadIn;
        var bottom := top + sec.offsetHeight;
        var link := ActiveLink.QueryLink(hrefs, sec.id);
        ghost var before := active[..];
        if y >= top && y < bottom {
          var j := 0;
          while j < active.Length
            invariant 0 <= j <= active.Length
            invariant forall k :: 0 <= k < j ==> !active[k]
          {
            active[j] := false;
            j := j + 1;
          }
          if link.Some? {
            active[link.value] := true;
          }
          assert active[..] == ActiveLink.Marked(|before|, link);
        }
        assert sections[..i + 1][..i] == sections[..i];
        i := i + 1;
      }
      assert sections[..i] == sections;
    }

    /** `toggleMenu()`. */
    method ToggleMenu()
      modifies this`menuOpen, this`ariaExpanded
      ensures Menu() == MobileMenu.Toggle(old(Menu()), navPresent, menuButtonPresent)
    {
      if !navPresent || !menuButtonPresent {
        return;
      }
      menuOpen := !menuOpen;
      ariaExpanded := MobileMenu.BoolText(menuOpen);
    }

    /** The document `click` listener; `inNavLink` says whether the click target
        lies inside a `#siteNav a` link. */
    method OnClick(inNavLink: bool)
      modifies this`menuOpen, this`ariaExpanded
      ensures Menu() == MobileMenu.LinkClick(old(Menu()), inNavLink, navPresent, menuButtonPresent)
    {
      if inNavLink {
        if navPresent && menuButtonPresent && menuOpen {
          menuOpen := false;
          ariaExpanded := "false";
        }
      }
    }

    /** The window `resize` listener at viewport width `width`. */
    method OnResize(width: int)
      modifies this`menuOpen, this`ariaExpanded
      ensures Menu() == MobileMenu.Resize(old(Menu()), width, navPresent, menuButtonPresent)
    {
      if width > MobileMenu.Breakpoint && navPresent && menuButtonPresent {
        menuOpen := false;
        ariaExpanded := "false";
      }
    }

    /** `updateThemeToggleUI(theme)`. */
    method UpdateThemeToggleUI(theme: Option<string>)
      modifies this`ariaPressed, this`ariaLabel, this`title
      ensures ThemeView() == Theme.UpdateToggleUI(old(ThemeView()), theme, themeButtonPresent)
    {
      if !themeButtonPresent {
        return;
      }
      var isDark := theme == Some(Theme.Dark);
      ariaPressed := if isDark then "true" else "false";
      var text := if isDark then Theme.SwitchToLightLabel else Theme.SwitchToDarkLabel;
      ariaLabel := text;
      title := text;
    }

    /** `applyTheme(theme)`; `storageOk` says whether the storage write succeeds. */
    method ApplyTheme(theme: string, storageOk: bool)
      modifies this`dataTheme, this`storedTheme, this`ariaPressed, this`ariaLabel, this`title
      ensures ThemeView() == Theme.Apply(old(ThemeView()), theme, themeButtonPresent, storageOk)
    {
      dataTheme := Some(theme);
      if storageOk {
        storedTheme := Some(theme);
      }
      UpdateThemeToggleUI(Some(theme));
    }

    /** `toggleTheme()`. */
    method ToggleTheme(storageOk: bool)
      modifies this`dataTheme, this`storedTheme, this`ariaPressed, this`ariaLabel, this`title
      ensures ThemeView() == Theme.Toggle(old(ThemeView()), themeButtonPresent, storageOk)
    {
      var next := if dataTheme == Some(Theme.Light) then Theme.Dark else Theme.Light;
      ApplyTheme(next, storageOk);
    }

    /** `initTheme()`, run once when the script is evaluated. `readOk` and
        `writeOk` say whether storage access succeeds; `hasMatchMedia` whether the
        platform offers media queries and `prefersLight` whether the colour-scheme
        query for light matches. */
    method InitTheme(readOk: bool, writeOk: bool, hasMatchMedia: bool, prefersLight: bool)
      modifies this`dataTheme, this`storedTheme, this`ariaPressed, this`ariaLabel, this`title
      ensures ThemeView() ==
        Theme.Init(old(ThemeView()), themeButtonPresent, readOk, writeOk, hasMatchMedia, prefersLight)
    {
      var stored: Option<string> := None;
      if readOk {
        stored := storedTheme;
      }
      if stored.Some? && stored.value != "" {
        ApplyTheme(stored.value, writeOk);
        return;
      }
      var light := hasMatchMedia && prefersLight;
      ApplyTheme(if light then Theme.Light else Theme.Dark, writeOk);
    }

    /** The `DOMContentLoaded` listener. */
    method OnDomContentLoaded()
      modifies this`ariaPressed, this`ariaLabel, this`title
      ensures ThemeView() == Theme.Resync(old(ThemeView()), themeButtonPresent)
    {
      UpdateThemeToggleUI(dataTheme);
    }

    /** `updateHeaderShadow()` at scroll offset `offset`. */
    method UpdateHeaderShadow(offset: int)
      modifies this`scrolled
      ensures scrolled == HeaderShadow.Update(old(scrolled), offset, headerPresent)
    {
      var atTop := offset < HeaderShadow.Threshold;
      if headerPresent {
        scrolled := !atTop;
      }
    }

    /** A window `scroll` event at offset `y`: the two listeners run in the order
        they were registered, `setActive` first, then `updateHeaderShadow`. */
    method OnScroll(y: int)
      requires Valid()
      modifies active, this`scrolled
      ensures active[..] == ActiveLink.Scan(old(active[..]), sections, hrefs, y)
      ensures scrolled == HeaderShadow.Update(old(scrolled), y, headerPresent)
    {
      SetActive(y);
      UpdateHeaderShadow(y);
    }
  }
}
