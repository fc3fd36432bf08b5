/** The fixed navigation bar: which command-menu actions it lists, which of
    them is highlighted for the current path, and the theme toggle. */
module Navbar {
  import opened Js

  /** An entry of the command menu's action list (its other fields are not used here). */
  datatype Action = Action(name: string, href: Option<string>, section: string, color: string)

  const NavigationSection: string := "Navigation"

  /** The actions of the "Navigation" section, in their list order. */
  function NavigationItems(actions: seq<Action>): (items: seq<Action>)
    ensures |items| <= |actions|
    ensures forall a :: a in items <==> a in actions && a.section == NavigationSection
    decreases |actions|
  {
    if actions == [] then []
    else (if actions[0].section == NavigationSection then [actions[0]] else [])
         + NavigationItems(actions[1..])
  }

  /** Filtering distributes over concatenation, so the bar keeps the list's order. */
  lemma {:induction false} NavigationItemsAppend(a: seq<Action>, b: seq<Action>)
    ensures NavigationItems(a + b) == NavigationItems(a) + NavigationItems(b)
    decreases |a|
  {
    if a == [] {
      assert a + b == b;
    } else {
      NavigationItemsAppend(a[1..], b);
      assert a + b == [a[0]] + (a[1..] + b);
      NavigationItemsCons(a[0], a[1..] + b);
      NavigationItemsCons(a[0], a[1..]);
      assert [a[0]] + a[1..] == a;
    }
  }

  lemma NavigationItemsCons(h: Action, s: seq<Action>)
    ensures NavigationItems([h] + s)
            == (if h.section == NavigationSection then [h] else []) + NavigationItems(s)
  {
    assert ([h] + s)[0] == h && ([h] + s)[1..] == s;
  }

  /** `action.href || '/'`. */
  function NavHref(action: Action): (href: string)
    ensures Truthy(action.href) ==> href == action.href.value
    ensures !Truthy(action.href) ==> href == "/"
    ensures href != ""
  {
    OrElse(action.href, "/")
  }

  /** isActive: the home link only on "/" itself, any other link on every path it prefixes. */
  function IsActive(pathname: string, href: string): (active: bool)
    ensures href == "/" ==> (active <==> pathname == "/")
    ensures href != "/" ==> (active <==> |href| <= |pathname| && pathname[..|href|] == href)
  {
    if href == "/" then pathname == "/" else href <= pathname
  }

  /** A link is active on its own path and on every path below it. */
  lemma ActiveBelowOwnPath(href: string, rest: string)
    requires href != "/" || rest == ""
    ensures IsActive(href + rest, href)
  {
    assert (href + rest)[..|href|] == href;
  }

  /** On the root path only the home link is highlighted. */
  lemma RootHighlightsOnlyHome(action: Action)
    ensures IsActive("/", NavHref(action)) <==> NavHref(action) == "/"
  {
  }

  /** toggleTheme: the theme to switch to; an unresolved theme switches to dark. */
  function ToggleTheme(resolvedTheme: Option<string>): (next: string)
    ensures resolvedTheme == Some("dark") ==> next == "light"
    ensures resolvedTheme != Some("dark") ==> next == "dark"
  {
    if resolvedTheme == Some("dark") then "light" else "dark"
  }

  /** Toggling twice from a resolved light or dark theme returns to it. */
  lemma ToggleTwiceRestores(theme: string)
    requires theme == "dark" || theme == "light"
    ensures ToggleTheme(Some(ToggleTheme(Some(theme)))) == theme
  {
  }

  datatype Icon = Sun | Moon

  /** The toggle's icon: a sun in dark mode, a moon otherwise. */
  function ThemeIcon(resolvedTheme: Option<string>): (icon: Icon)
    ensures icon == Sun <==> resolvedTheme == Some("dark")
  {
    if resolvedTheme == Some("dark") then Sun else Moon
  }

  /** The icon announces the theme a click switches to. */
  lemma IconMatchesTarget(resolvedTheme: Option<string>)
    ensures ThemeIcon(resolvedTheme) == Sun <==> ToggleTheme(resolvedTheme) == "light"
  {
  }
}
