/**
 * The navigation bar: the mobile menu flag, the scrolled flag that restyles
 * the bar, the theme toggle, the fixed table of section links and the two
 * language menu items.
 */
module Navbar {
  import opened Wrappers
  import LanguageContext

  /** How far the page must scroll, strictly, before the bar takes its scrolled style. */
  const ScrollThreshold: real := 10.0

  /** The theme `toggleTheme` chooses: "light" from "dark", "dark" from anything else or nothing. */
  function NextTheme(theme: Option<string>): (r: string)
    ensures r == "light" <==> theme == Some("dark")
    ensures r == "dark" <==> theme != Some("dark")
  {
    if theme == Some("dark") then "light" else "dark"
  }

  /**
   * Two presses of the theme button bring back the theme exactly when it was
   * "dark" or "light"; from any other theme (such as "system", or none yet) the
   * first press gives "dark" and the second "light".
   */
  lemma ThemeToggleTwice(theme: Option<string>)
    ensures Some(NextTheme(Some(NextTheme(theme)))) == theme <==> theme == Some("dark") || theme == Some("light")
    ensures theme != Some("dark") ==> NextTheme(Some(NextTheme(theme))) == "light"
  {
    var once := NextTheme(theme);
    var twice := NextTheme(Some(once));
    assert twice == "light" || twice == "dark";
    if theme == Some("light") {
      assert once == "dark";
    }
  }

  /** One entry of the bar: the key of its label and the anchor it points to. */
  datatype NavLink = NavLink(labelKey: string, href: string)

  /** The bar's links, in the order they are shown. */
  const NavLinks: seq<NavLink> := [
    NavLink("nav.home", "#"),
    NavLink("nav.about", "#about"),
    NavLink("nav.projects", "#projects"),
    NavLink("nav.contact", "#contact")
  ]

  /** Every link points to an anchor on the page, and no two links share a label or a target. */
  lemma NavLinksDistinct()
    ensures |NavLinks| == 4
    ensures forall i :: 0 <= i < |NavLinks| ==> |NavLinks[i].href| > 0 && NavLinks[i].href[0] == '#'
    ensures forall i, j :: 0 <= i < j < |NavLinks| ==>
      NavLinks[i].labelKey != NavLinks[j].labelKey && NavLinks[i].href != NavLinks[j].href
  {
    assert NavLinks[0].href[1..] == [] && NavLinks[1].href[1..] == "about";
    assert NavLinks[2].href[1..] == "projects" && NavLinks[3].href[1..] == "contact";
    assert NavLinks[0].labelKey[4..] == "home" && NavLinks[1].labelKey[4..] == "about";
    assert NavLinks[2].labelKey[4..] == "projects" && NavLinks[3].labelKey[4..] == "contact";
  }

  /** The two entries of the language menu. */
  datatype LanguageItem = English | Francais

  /** The language an entry of the menu selects. */
  function ItemLanguage(item: LanguageItem): (l: LanguageContext.Language)
    ensures LanguageContext.Code(l) == (if item == English then "en" else "fr")
  {
    match item
    case English => LanguageContext.En
    case Francais => LanguageContext.Fr
  }

  class NavigationBar {
    /** Whether the mobile menu is open. */
    var isOpen: bool
    var scrolled: bool
    /** The theme reported by the theme library; none before it has resolved one. */
    var theme: Option<string>

    constructor (theme: Option<string>)
      ensures !isOpen && !scrolled && this.theme == theme
    {
      isOpen := false;
      scrolled := false;
      this.theme := theme;
    }

    /** A scroll event at vertical offset `scrollY`. */
    method HandleScroll(scrollY: real)
      modifies this`scrolled
      ensures scrolled <==> scrollY > ScrollThreshold
    {
      if scrollY > ScrollThreshold {
        scrolled := true;
      } else {
        scrolled := false;
      }
    }

    method ToggleMenu()
      modifies this`isOpen
      ensures isOpen == !old(isOpen)
    {
      isOpen := !isOpen;
    }

    method CloseMenu()
      modifies this`isOpen
      ensures !isOpen
    {
      isOpen := false;
    }

    method ToggleTheme()
      modifies this`theme
      ensures theme == Some(NextTheme(old(theme)))
    {
      theme := Some(if theme == Some("dark") then "light" else "dark");
    }

    /** A click on the `i`-th link of the mobile menu: the page moves to its anchor and the menu closes. */
    method FollowMobileLink(i: nat) returns (href: string)
      requires i < |NavLinks|
      modifies this`isOpen
      ensures href == NavLinks[i].href
      ensures !isOpen
    {
      href := NavLinks[i].href;
      CloseMenu();
    }

    /** A language menu entry sets the provider's language and its stored preference. */
    method ChooseLanguage(provider: LanguageContext.LanguageProvider, item: LanguageItem)
      modifies provider
      ensures provider.language == ItemLanguage(item)
      ensures provider.storage == old(provider.storage)[LanguageContext.StorageKey := LanguageContext.Code(ItemLanguage(item))]
    {
      provider.SetLanguage(ItemLanguage(item));
    }
  }
}
