/** The application shell (App.js): the colour theme with its toggle, the
    mobile navigation flag with its hamburger button, and the class the theme
    effect writes on the document body. */
module AppShell {
  import opened Text

  /** The theme after a click on the theme button: "light" becomes "dark",
      and any other value becomes "light". */
  function ToggledTheme(theme: string): (next: string)
    ensures next == "light" || next == "dark"
    ensures next == "dark" <==> theme == "light"
  {
    if theme == "light" then "dark" else "light"
  }

  /** Two clicks on the theme button restore either theme. */
  lemma ToggleTwiceRestores(theme: string)
    requires theme == "light" || theme == "dark"
    ensures ToggledTheme(ToggledTheme(theme)) == theme
  {
  }

  /** The icon on the theme button. */
  datatype Icon = Moon | Sun

  /** The theme button shows the moon in the light theme and the sun
      otherwise, that is, the moon exactly when a click switches to dark. */
  function ThemeButtonIcon(theme: string): (icon: Icon)
    ensures icon == Moon <==> ToggledTheme(theme) == "dark"
  {
    if theme == "light" then Moon else Sun
  }

  /** The destinations of the navigation links, in the order they appear. */
  const NavLinks: seq<string> := ["/", "/about", "/health-tips", "/events", "/contact"]

  class Shell {
    var theme: string
    var isNavOpen: bool
    /** `document.body.className`, written by the theme effect. */
    var bodyClassName: string

    /** The theme is one of the two values and the body class mirrors it. */
    ghost predicate Valid()
      reads this
    {
      (theme == "light" || theme == "dark") && bodyClassName == theme
    }

    /** The shell starts light, with the mobile menu closed; the theme effect
        then runs once. */
    constructor ()
      ensures Valid()
      ensures theme == "light" && !isNavOpen && bodyClassName == "light"
    {
      theme := "light";
      isNavOpen := false;
      bodyClassName := "";
      new;
      ApplyThemeEffect();
    }

    /** The effect that copies the theme onto the document body. */
    method ApplyThemeEffect()
      modifies this`bodyClassName
      ensures bodyClassName == theme
    {
      bodyClassName := theme;
    }

    /** A click on the theme button flips the theme; the effect then updates
        the body class. The mobile menu is not touched. */
    method ToggleTheme()
      requires Valid()
      modifies this
      ensures Valid()
      ensures theme == ToggledTheme(old(theme)) && theme != old(theme)
      ensures bodyClassName == theme
      ensures isNavOpen == old(isNavOpen)
    {
      theme := ToggledTheme(theme);
      ApplyThemeEffect();
    }

    /** A click on the hamburger button flips the mobile menu flag and
        nothing else. */
    method ToggleNav()
      requires Valid()
      modifies this
      ensures Valid()
      ensures isNavOpen == !old(isNavOpen)
      ensures theme == old(theme) && bodyClassName == old(bodyClassName)
    {
      isNavOpen := !isNavOpen;
    }

    /** The class of the wrapper element: "app" followed by the theme. */
    function WrapperClassName(): (cls: string)
      reads this
      ensures IsPrefix("app ", cls)
      ensures Contains(cls, theme)
    {
      ContainsAt("app " + theme, theme, 4);
      "app " + theme
    }

    /** The links of the mobile panel: all of them when the menu is open,
        and no panel at all when it is closed. */
    function MobilePanelLinks(): (links: seq<string>)
      reads this
      ensures links != [] <==> isNavOpen
      ensures links != [] ==> links == NavLinks
    {
      if isNavOpen then NavLinks else []
    }
  }
}
