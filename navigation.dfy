/**
 * The site navigation bar (components/navigation.tsx): on which paths it
 * is hidden, which items it highlights, and how it names the signed-in user.
 */
module Navigation {
  import opened Wrappers
  import opened Text

  /** Paths on which the navigation renders nothing (lines 28-29). */
  const HiddenRoutes: seq<string> := ["/login", "/signup", "/forgot-password"]

  predicate Hidden(pathname: string) {
    pathname in HiddenRoutes
  }

  /** Exactly the three authentication pages hide the bar. */
  lemma HiddenExactly(pathname: string)
    ensures Hidden(pathname) <==> pathname == "/login" || pathname == "/signup" || pathname == "/forgot-password"
  {
  }

  /** The other authentication pages keep the bar. */
  lemma GetStartedAndResetShowBar()
    ensures !Hidden("/get-started") && !Hidden("/reset-password")
  {
  }

  datatype NavItem = NavItem(name: string, href: string)

  /** Lines 33-38. */
  const NavItems: seq<NavItem> := [
    NavItem("Listen Buddy", "/products/listen-buddy"),
    NavItem("Pricing", "/products/listen-buddy#pricing"),
    NavItem("About", "/about"),
    NavItem("Contact", "/contact")]

  /**
   * The highlight rule shared by the desktop and the mobile menu (lines 66
   * and 168): an exact match, or a raw prefix match against the href up to
   * its first '#', except for the home link.
   */
  predicate IsActive(pathname: string, href: string) {
    pathname == href || (href != "/" && StartsWith(pathname, SplitFirst(href, '#')))
  }

  /** For an href without an anchor the rule is a plain prefix test. */
  lemma ActiveWithoutAnchor(pathname: string, href: string)
    requires '#' !in href && href != "/"
    ensures IsActive(pathname, href) <==> StartsWith(pathname, href)
  {
    SplitFirstWithout(href, '#');
  }

  /** The home link is highlighted only on the home page. */
  lemma HomeOnlyOnHome(pathname: string)
    ensures IsActive(pathname, "/") <==> pathname == "/"
  {
  }

  /** The names of the highlighted items, in menu order. */
  function ActiveNames(pathname: string, items: seq<NavItem>): (names: seq<string>)
    ensures |names| <= |items|
  {
    if items == [] then []
    else
      var rest := ActiveNames(pathname, items[1..]);
      if IsActive(pathname, items[0].href) then [items[0].name] + rest else rest
  }

  /** A name is listed iff some item with that name is active. */
  lemma {:induction false} ActiveNamesExactly(pathname: string, items: seq<NavItem>, n: string)
    ensures n in ActiveNames(pathname, items) <==> exists i :: 0 <= i < |items| && items[i].name == n && IsActive(pathname, items[i].href)
    decreases |items|
  {
    if items != [] {
      ActiveNamesExactly(pathname, items[1..], n);
      assert forall i :: 0 < i < |items| ==> items[i] == items[1..][i - 1];
      if exists i :: 0 <= i < |items[1..]| && items[1..][i].name == n && IsActive(pathname, items[1..][i].href) {
        var i :| 0 <= i < |items[1..]| && items[1..][i].name == n && IsActive(pathname, items[1..][i].href);
        assert items[i + 1] == items[1..][i];
      }
    }
  }

  const ProductPath := "/products/listen-buddy"

  /** An anchored href highlights the page it anchors into. */
  lemma AnchorActiveOnItsPage(path: string, anchor: string)
    requires '#' !in path && path != ""
    ensures IsActive(path, path + "#" + anchor)
  {
    var h := path + "#" + anchor;
    assert |h| > 1;
    SplitFirstAt(path, '#', anchor);
    assert path[..|path|] == path;
  }

  /** Paths that differ in their second character are not prefixes of each other. */
  lemma DifferentSecondCharInactive(path: string, href: string)
    requires |path| > 1 && |href| > 1 && '#' !in href && path[1] != href[1]
    ensures !IsActive(path, href)
  {
    SplitFirstWithout(href, '#');
  }

  /** One step of `ActiveNames`: an inactive head contributes nothing. */
  lemma SkipInactive(path: string, items: seq<NavItem>, k: nat)
    requires k < |items| && !IsActive(path, items[k].href)
    ensures ActiveNames(path, items[k..]) == ActiveNames(path, items[k + 1..])
  {
    assert items[k..][1..] == items[k + 1..];
  }

  /** One step of `ActiveNames`: an active head is listed first. */
  lemma KeepActive(path: string, items: seq<NavItem>, k: nat)
    requires k < |items| && IsActive(path, items[k].href)
    ensures ActiveNames(path, items[k..]) == [items[k].name] + ActiveNames(path, items[k + 1..])
  {
    assert items[k..][1..] == items[k + 1..];
  }

  lemma PricingActiveOnProductPage(path: string, items: seq<NavItem>)
    requires path == ProductPath && items == NavItems
    ensures IsActive(path, items[1].href)
  {
    AnchorActiveOnItsPage(path, "pricing");
    assert items[1].href == path + "#" + "pricing";
  }

  /** On the product page both the product and the pricing anchor are highlighted. */
  lemma ProductPageHighlightsTwo(path: string, items: seq<NavItem>)
    requires path == ProductPath && items == NavItems
    ensures ActiveNames(path, items) == ["Listen Buddy", "Pricing"]
  {
    DifferentSecondCharInactive(path, items[3].href);
    SkipInactive(path, items, 3);
    DifferentSecondCharInactive(path, items[2].href);
    SkipInactive(path, items, 2);
    PricingActiveOnProductPage(path, items);
    KeepActive(path, items, 1);
    KeepActive(path, items, 0);
    assert items[0..] == items;
  }

  /** The raw prefix test highlights "About" on any path that merely begins with "/about". */
  lemma AboutHighlightedOnAboutUs()
    ensures "About" in ActiveNames("/about-us", NavItems)
  {
    SplitFirstWithout("/about", '#');
    assert "/about-us"[..6] == "/about";
    assert NavItems[2].name == "About" && IsActive("/about-us", NavItems[2].href);
    ActiveNamesExactly("/about-us", NavItems, "About");
  }

  /** Upper-casing of one character, on ASCII letters. */
  function Upper(c: char): (u: char)
    ensures 'a' <= c <= 'z' ==> 'A' <= u <= 'Z'
    ensures !('a' <= c <= 'z') ==> u == c
  {
    if 'a' <= c <= 'z' then (c as int - 32) as char else c
  }

  /** `s.charAt(0).toUpperCase()`. */
  function FirstUpper(s: string): (r: string)
    ensures |r| == if s == "" then 0 else 1
    ensures s != "" ==> r[0] == Upper(s[0])
  {
    if s == "" then "" else [Upper(s[0])]
  }

  /** The avatar letter (lines 96 and 192): from the full name, else from the e-mail. */
  function Initial(fullName: Option<string>, email: Option<string>): (r: Option<string>)
    ensures Truthy(fullName) ==> r == Some([Upper(fullName.value[0])])
    ensures !Truthy(fullName) && Truthy(email) ==> r == Some([Upper(email.value[0])])
    ensures Truthy(r) <==> Truthy(fullName) || Truthy(email)
  {
    var a := if fullName.Some? then Some(FirstUpper(fullName.value)) else None;
    var b := if email.Some? then Some(FirstUpper(email.value)) else None;
    OrElse(a, b)
  }

  /** The menu name (lines 99 and 196): the full name, else the e-mail up to its first '@'. */
  function DisplayName(fullName: Option<string>, email: Option<string>): (r: Option<string>)
    ensures Truthy(fullName) ==> r == fullName
    ensures !Truthy(fullName) ==> r == (if email.Some? then Some(SplitFirst(email.value, '@')) else None)
    ensures r.Some? && r != fullName ==> '@' !in r.value
  {
    OrElse(fullName, if email.Some? then Some(SplitFirst(email.value, '@')) else None)
  }

  /** A user without a name is shown as the local part of their address. */
  lemma NamelessUserShownByLocalPart(local: string, domain: string)
    requires '@' !in local
    ensures DisplayName(None, Some(local + "@" + domain)) == Some(local)
  {
    SplitFirstAt(local, '@', domain);
  }
}
