/** The Menu page: picking the logo, the branding picture and the PDF menu
    out of the asset lists by keyword, dispatching the navigation buttons,
    and the open/closed flag of the burger button. */
module Menu {

  datatype Option<T> = None | Some(value: T)

  // ---------------------------------------------------------------------------
  // Text: ASCII lowercasing and substring search
  // ---------------------------------------------------------------------------

  /** Lowercase one character (ASCII letters only). */
  function LowerChar(c: char): char
  {
    if 'A' <= c <= 'Z' then (c as int + 32) as char else c
  }

  /** `s.toLowerCase()`, character by character. */
  function Lower(s: string): string
  {
    seq(|s|, i requires 0 <= i < |s| => LowerChar(s[i]))
  }

  /** A lowercased string holds no upper-case letter, so lowercasing twice is
      lowercasing once. */
  lemma LowerIdempotent(s: string)
    ensures forall i :: 0 <= i < |s| ==> !('A' <= Lower(s)[i] <= 'Z')
    ensures Lower(Lower(s)) == Lower(s)
  {
  }

  /** `k` is a prefix of `s`. */
  predicate StartsWith(s: string, k: string)
  {
    |k| <= |s| && s[..|k|] == k
  }

  /** `s.includes(k)`: `k` occurs somewhere in `s` (the empty string occurs
      everywhere). */
  predicate Includes(s: string, k: string)
  {
    StartsWith(s, k) || (s != [] && Includes(s[1..], k))
  }

  /** `k` occurs in `s` starting at position `i`. */
  ghost predicate OccursAt(s: string, k: string, i: int)
  {
    0 <= i && i + |k| <= |s| && s[i..i + |k|] == k
  }

  /** An occurrence at a position is found by the search. */
  lemma {:induction false} OccursIncludes(s: string, k: string, i: int)
    requires OccursAt(s, k, i)
    ensures Includes(s, k)
    decreases i
  {
    if i == 0 {
      assert s[..|k|] == s[i..i + |k|];
    } else {
      assert s[1..][i - 1..i - 1 + |k|] == s[i..i + |k|];
      OccursIncludes(s[1..], k, i - 1);
    }
  }

  /** What the search finds is an occurrence at some position. */
  lemma {:induction false} IncludesOccurs(s: string, k: string)
    requires Includes(s, k)
    ensures exists i :: OccursAt(s, k, i)
    decreases |s|
  {
    if StartsWith(s, k) {
      assert OccursAt(s, k, 0);
    } else {
      IncludesOccurs(s[1..], k);
      var i :| OccursAt(s[1..], k, i);
      assert s[1..][i..i + |k|] == s[i + 1..i + 1 + |k|];
      assert OccursAt(s, k, i + 1);
    }
  }

  /** The search agrees with the positional definition of an occurrence. */
  lemma IncludesIff(s: string, k: string)
    ensures Includes(s, k) <==> exists i :: OccursAt(s, k, i)
  {
    if Includes(s, k) {
      IncludesOccurs(s, k);
    }
    if exists i :: OccursAt(s, k, i) {
      var i :| OccursAt(s, k, i);
      OccursIncludes(s, k, i);
    }
  }

  /** A string that contains `k` is at least as long as `k`. */
  lemma {:induction false} IncludesLength(s: string, k: string)
    requires Includes(s, k)
    ensures |k| <= |s|
    decreases |s|
  {
    if !StartsWith(s, k) {
      IncludesLength(s[1..], k);
    }
  }

  // ---------------------------------------------------------------------------
  // Asset identification
  // ---------------------------------------------------------------------------

  /** `p.toLowerCase().includes(keyword)`. */
  predicate Matches(p: string, keyword: string)
  {
    Includes(Lower(p), keyword)
  }

  /** Some path in the list matches the keyword. */
  ghost predicate HasMatch(paths: seq<string>, keyword: string)
  {
    exists j :: 0 <= j < |paths| && Matches(paths[j], keyword)
  }

  /** Position `i` holds the first path that matches the keyword. */
  ghost predicate FirstMatchAt(paths: seq<string>, keyword: string, i: int)
  {
    0 <= i < |paths| && Matches(paths[i], keyword) &&
    forall j :: 0 <= j < i ==> !Matches(paths[j], keyword)
  }

  /** The first match, if any, is unique. */
  lemma FirstMatchUnique(paths: seq<string>, keyword: string, i: int, j: int)
    requires FirstMatchAt(paths, keyword, i) && FirstMatchAt(paths, keyword, j)
    ensures i == j
  {
  }

  /** Index of the first path matching the keyword, scanning from the front. */
  function FindIndex(paths: seq<string>, keyword: string): (r: Option<nat>)
    ensures r.Some? ==> FirstMatchAt(paths, keyword, r.value)
    ensures r.None? <==> !HasMatch(paths, keyword)
  {
    if paths == [] then None
    else if Matches(paths[0], keyword) then Some(0)
    else match FindIndex(paths[1..], keyword)
      case None => None
      case Some(i) => Some(i + 1)
  }

  /** `paths.find(p => p.toLowerCase().includes(keyword))`: the first
      matching path, or undefined. */
  function Find(paths: seq<string>, keyword: string): (r: Option<string>)
    ensures r.None? <==> !HasMatch(paths, keyword)
    ensures r.Some? ==> r.value in paths && Matches(r.value, keyword)
    ensures r.Some? ==> exists i :: FirstMatchAt(paths, keyword, i) && paths[i] == r.value
  {
    match FindIndex(paths, keyword)
    case None => None
    case Some(i) => Some(paths[i])
  }

  /** `xs[0]`, which is undefined on an empty list. */
  function First(xs: seq<string>): Option<string>
  {
    if xs == [] then None else Some(xs[0])
  }

  /** JavaScript's `a || b` on a string-or-undefined: `a` unless it is
      undefined or the empty string. */
  function JsOr(a: Option<string>, b: Option<string>): Option<string>
  {
    if a.Some? && a.value != "" then a else b
  }

  /** A path found for a non-empty keyword is never the empty string, so
      `find(...) || fallback` keeps every match. */
  lemma FoundIsTruthy(paths: seq<string>, keyword: string)
    requires keyword != ""
    ensures Find(paths, keyword).Some? ==> Find(paths, keyword).value != ""
    ensures JsOr(Find(paths, keyword), None) == Find(paths, keyword)
  {
    if Find(paths, keyword).Some? {
      IncludesLength(Lower(Find(paths, keyword).value), keyword);
    }
  }

  /** The logo in the header: the first image whose lowercased path
      contains "logo", or "" when there is none. */
  function LogoImg(images: seq<string>): (r: string)
    ensures r == "" <==> !HasMatch(images, "logo")
    ensures r != "" ==> exists i :: FirstMatchAt(images, "logo", i) && images[i] == r
  {
    FoundIsTruthy(images, "logo");
    JsOr(Find(images, "logo"), Some("")).value
  }

  /** The large circular picture: the logo when one exists, otherwise the
      first image, and undefined when there are no images at all. */
  function BrandingImg(images: seq<string>): (r: Option<string>)
    ensures LogoImg(images) != "" ==> r == Some(LogoImg(images))
    ensures LogoImg(images) == "" && |images| > 0 ==> r == Some(images[0])
    ensures r.None? <==> |images| == 0
    ensures r.Some? ==> r.value in images
  {
    FoundIsTruthy(images, "logo");
    JsOr(Find(images, "logo"), First(images))
  }

  /** The link of the "Open Full PDF Menu" button: the first PDF whose
      lowercased path contains "menu", otherwise the first PDF, and
      undefined when there are no PDFs. */
  function MenuLink(pdfs: seq<string>): (r: Option<string>)
    ensures HasMatch(pdfs, "menu") ==> exists i :: FirstMatchAt(pdfs, "menu", i) && r == Some(pdfs[i])
    ensures !HasMatch(pdfs, "menu") && |pdfs| > 0 ==> r == Some(pdfs[0])
    ensures r.None? <==> |pdfs| == 0
    ensures r.Some? ==> r.value in pdfs
  {
    FoundIsTruthy(pdfs, "menu");
    JsOr(Find(pdfs, "menu"), First(pdfs))
  }

  // ---------------------------------------------------------------------------
  // Navigation dispatch
  // ---------------------------------------------------------------------------

  /** What a navigation handler asks of the browser: a route change, or a
      (deferred) scroll to the element with the given id. */
  datatype Effect = Navigate(to: string) | ScrollTo(id: string)

  /** `scrollToSection(id)`: go to the home route, then scroll to `id` once
      the page has mounted. */
  function ScrollEffects(id: string): seq<Effect>
  {
    [Navigate("/"), ScrollTo(id)]
  }

  /** `handleNav(path)`: "about" scrolls to the About section of the home
      page, "home" goes to the home route, any other label goes to the route
      named by the lowercased label. The comparisons are on the label as
      given; only the fallback route is lowercased. */
  function NavEffects(path: string): (r: seq<Effect>)
    ensures |r| > 0 && r[0].Navigate? && |r[0].to| > 0 && r[0].to[0] == '/'
    ensures path == "about" ==> ScrollTo("about") in r
    ensures path != "about" ==> forall e :: e in r ==> e.Navigate?
  {
    if path == "about" then ScrollEffects("about")
    else [Navigate(if path == "home" then "/" else "/" + Lower(path))]
  }

  /** The route a navigation label leads to. */
  function Destination(path: string): string
  {
    NavEffects(path)[0].to
  }

  /** The three cases of `handleNav`, and every destination is a lowercase
      rooted path. */
  lemma HandleNavCases(path: string)
    ensures path == "home" ==> NavEffects(path) == [Navigate("/")]
    ensures path == "about" ==> NavEffects(path) == [Navigate("/"), ScrollTo("about")]
    ensures path != "home" && path != "about" ==> NavEffects(path) == [Navigate("/" + Lower(path))]
    ensures Lower(Destination(path)) == Destination(path)
  {
    if path != "home" && path != "about" {
      LowerIdempotent(path);
      assert Lower("/" + Lower(path)) == [LowerChar('/')] + Lower(Lower(path));
    }
  }

  /** The labels of the header navigation, in order. */
  const NavItems: seq<string> := ["Home", "About", "Services", "Gallery", "Contact"]

  /** The paths of the application's routing table. */
  const AppRoutes: seq<string> := ["/", "/services", "/gallery", "/contact"]

  /** The buttons pass their label lowercased; the five buttons lead to
      "/", "/" (then the About section), "/services", "/gallery" and
      "/contact". */
  lemma NavItemDestinations()
    ensures Destination(Lower(NavItems[0])) == "/"
    ensures NavEffects(Lower(NavItems[1])) == [Navigate("/"), ScrollTo("about")]
    ensures Destination(Lower(NavItems[2])) == "/services"
    ensures Destination(Lower(NavItems[3])) == "/gallery"
    ensures Destination(Lower(NavItems[4])) == "/contact"
  {
  }

  /** Every header button leads to a route of the application. */
  lemma NavItemsRouted()
    ensures forall k :: 0 <= k < |NavItems| ==> Destination(Lower(NavItems[k])) in AppRoutes
  {
    NavItemDestinations();
    forall k | 0 <= k < |NavItems|
      ensures Destination(Lower(NavItems[k])) in AppRoutes
    {
      if k == 0 || k == 1 {
        assert Destination(Lower(NavItems[k])) == AppRoutes[0];
      } else if k == 2 {
        assert Destination(Lower(NavItems[k])) == AppRoutes[1];
      } else if k == 3 {
        assert Destination(Lower(NavItems[k])) == AppRoutes[2];
      } else {
        assert Destination(Lower(NavItems[k])) == AppRoutes[3];
      }
    }
  }

  // ---------------------------------------------------------------------------
  // The component state
  // ---------------------------------------------------------------------------

  /** The Menu component's state: the burger button's open/closed flag
      (it picks the `close` or `menu` icon), and the navigation and scroll
      requests the page has issued so far. */
  class MenuPage {
    var isMenuOpen: bool
    var effects: seq<Effect>

    /** Mounting the page: the flag starts closed. */
    constructor ()
      ensures !isMenuOpen && effects == []
    {
      isMenuOpen := false;
      effects := [];
    }

    /** `scrollToSection(id)`: go home, scroll to `id`, clear the flag. */
    method ScrollToSection(id: string)
      modifies this
      ensures !isMenuOpen
      ensures effects == old(effects) + ScrollEffects(id)
    {
      effects := effects + [Navigate("/")];
      effects := effects + [ScrollTo(id)];
      isMenuOpen := false;
    }

    /** `handleNav(path)`: dispatch the label, then clear the flag. */
    method HandleNav(path: string)
      modifies this
      ensures !isMenuOpen
      ensures effects == old(effects) + NavEffects(path)
    {
      if path == "about" {
        ScrollToSection("about");
      } else {
        effects := effects + [Navigate(if path == "home" then "/" else "/" + Lower(path))];
      }
      isMenuOpen := false;
    }

    /** The burger button flips the flag. */
    method ToggleMenu()
      modifies this
      ensures isMenuOpen == !old(isMenuOpen)
      ensures effects == old(effects)
    {
      isMenuOpen := !isMenuOpen;
    }

    /** Clicking the brand block goes to the home route; the flag is left
        as it is. */
    method GoHome()
      modifies this
      ensures isMenuOpen == old(isMenuOpen)
      ensures effects == old(effects) + [Navigate("/")]
    {
      effects := effects + [Navigate("/")];
    }
  }

  /** Two presses of the burger button restore the flag. */
  method ToggleTwice(page: MenuPage)
    modifies page
    ensures page.isMenuOpen == old(page.isMenuOpen)
    ensures page.effects == old(page.effects)
  {
    page.ToggleMenu();
    page.ToggleMenu();
  }
}
