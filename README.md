# Chef Keyanne site: carousel and menu-page logic in Dafny

The site is a static restaurant brochure. Two of its components hold logic
with any substance, and this project models and verifies them:

- **Home page hero carousel** (`home.dfy`, module `Home`). Three fixed slide
  URLs and one `currentIndex` that starts at 0. The forward arrow (and the
  auto-advance timer) moves one slide on and wraps to the first. The backward
  arrow moves one slide back and wraps from the first to the last. An
  indicator dot jumps to its own slide. Rendering gives the slide and the dot
  at `currentIndex` the active classes. The state is the class
  `HeroCarousel`. `NextSlide` and `PrevSlide` are proved against the pure
  index functions `Next` and `Prev`; `ClickDot` sets the index to exactly the
  dot's own index. The lemmas prove that the index stays in range, that `k`
  backward steps undo `k` forward steps and `k` forward steps undo `k`
  backward steps, that `n` forward steps return to the start, and that
  exactly one slide and one dot are active.
- **Menu page** (`menu.dfy`, module `Menu`):
  - *Asset identification.* The page picks the logo (first image whose
    lowercased path contains `logo`, else `""`). It picks the branding
    picture (the logo, else the first image). It picks the PDF menu link
    (first PDF whose lowercased path contains `menu`, else the first PDF).
    These are pure functions over the asset path lists. JavaScript's
    `find(...) || fallback` is modelled exactly, with `undefined` and `""`
    both falsy, and a lemma shows that a match is never `""`.
  - *Navigation.* `handleNav` turns a label into browser requests: a route
    change, or a route change followed by a deferred scroll to the About
    section. The burger button's flag `isMenuOpen` (it chooses the `close`
    or `menu` icon) is cleared by `handleNav` and `scrollToSection` and
    flipped by the burger button; clicking the brand block navigates home
    and leaves it as it is. The class `MenuPage` keeps
    the flag and the list of requests issued so far.

Browser side effects (route changes, scrolling) are values of the datatype
`Menu.Effect`, appended to `MenuPage.effects`. They are not performed.

A dot click is not range-checked: the dots are drawn one per slide
(src/components/Home.tsx:105), so `HeroCarousel.ClickDot` requires an index
below the number of slides.

## Model

| member | source | states |
|---|---|---|
| `Home.Next` | src/components/Home.tsx:13-15 | the next index is always below the slide count; it is one more, or 0 after the last slide |
| `Home.Prev` | src/components/Home.tsx:17-19 | from an in-range index the result stays in range; 0 goes to the last slide, any other index to the one before |
| `Home.PrevNextInverse` | src/components/Home.tsx:13-19 | back after forward, and forward after back, restore every in-range index |
| `Home.AdvanceByAdds` | src/components/Home.tsx:13-15 | `a` forward steps followed by `b` forward steps equal `a + b` forward steps |
| `Home.AdvanceByNoWrap` | src/components/Home.tsx:13-15 | before the last slide, `k` forward steps add `k`; the step past the last slide gives 0 |
| `Home.AdvancePeriod` | src/components/Home.tsx:13-15 | as many forward steps as there are slides return to the starting index |
| `Home.RetreatUndoesAdvance` | src/components/Home.tsx:13-19 | `k` forward steps stay in range, and `k` backward steps then restore the start |
| `Home.AdvanceUndoesRetreat` | src/components/Home.tsx:13-19 | `k` backward steps stay in range, and `k` forward steps then restore the start |
| `Home.AdvanceAfterStepBack` | src/components/Home.tsx:13-19 | `k + 1` forward steps after one backward step equal `k` forward steps |
| `Home.RetreatAfterStep` | src/components/Home.tsx:13-19 | `k + 1` backward steps after one forward step equal `k` backward steps |
| `Home.ThreeTicksFromStart` | src/components/Home.tsx:3-14 | there are three hero slides; from slide 0, ticks show slides 1, 2, 0 |
| `Home.RenderMarksExactlyCurrent` | src/components/Home.tsx:39-50 | the active class appears exactly at the current index: once when the index is in range, never otherwise |
| `Home.ExactlyOneActive` | src/components/Home.tsx:39-50 | for an in-range index, exactly one slide gets `opacity-100` and `scale-110`, and exactly one dot gets `w-8 bg-primary`: those at the current index |
| `Home.HeroCarousel.constructor` | src/components/Home.tsx:3-10 | the page starts on the fixed hero list at index 0, which is a valid slide |
| `Home.HeroCarousel.NextSlide` | src/components/Home.tsx:13-15 | the new index is `Next` of the old one and stays a valid slide |
| `Home.HeroCarousel.PrevSlide` | src/components/Home.tsx:17-19 | the new index is `Prev` of the old one and stays a valid slide |
| `Home.HeroCarousel.ClickDot` | src/components/Home.tsx:105-108 | clicking dot `i` sets the index to exactly `i`, a valid slide |
| `Home.HeroCarousel.Opacities` | src/components/Home.tsx:39-44 | one opacity class per slide; exactly one is `opacity-100`, the current one, and every other slide is `opacity-0` |
| `Home.HeroCarousel.Dots` | src/components/Home.tsx:105-109 | one dot class per slide; exactly one is highlighted (`w-8 bg-primary`), the current one, and every other dot is `w-2 bg-white/30` |
| `Menu.LowerIdempotent` | src/components/Menu.tsx:20-22 | a lowercased string has no upper-case ASCII letter, and lowercasing it again changes nothing |
| `Menu.OccursIncludes` | src/components/Menu.tsx:20-22 | a keyword occurring at some position is found by the substring test |
| `Menu.IncludesOccurs` | src/components/Menu.tsx:20-22 | what the substring test finds occurs at some position |
| `Menu.IncludesIff` | src/components/Menu.tsx:20-22 | the substring test holds if and only if the keyword occurs at some position |
| `Menu.IncludesLength` | src/components/Menu.tsx:20-22 | a string that contains a keyword is at least as long as it |
| `Menu.FirstMatchUnique` | src/components/Menu.tsx:20-22 | the position of the first match is unique |
| `Menu.FindIndex` | src/components/Menu.tsx:20-22 | the result is the position of the first path whose lowercase form contains the keyword; nothing is returned exactly when no path matches |
| `Menu.Find` | src/components/Menu.tsx:20-22 | `find` returns undefined exactly when nothing matches; otherwise a member of the list that matches, at the first matching position |
| `Menu.FoundIsTruthy` | src/components/Menu.tsx:20-22 | a path found for a non-empty keyword is never `""`, so `find(...) || x` never discards a match |
| `Menu.LogoImg` | src/components/Menu.tsx:21 | `""` exactly when no image path contains `logo` (case-insensitively), otherwise the first image that does |
| `Menu.BrandingImg` | src/components/Menu.tsx:20-21 | the logo when one exists, else the first image `images[0]`; undefined exactly when there are no images; always a member of the list |
| `Menu.MenuLink` | src/components/Menu.tsx:22 | the first PDF whose path contains `menu` when one exists, else the first PDF `pdfs[0]`; undefined exactly when there are no PDFs; always a member of the list |
| `Menu.NavEffects` | src/components/Menu.tsx:32-46 | every dispatch starts with a route change to a rooted path; `about` also scrolls to `about`; every other label only changes the route |
| `Menu.HandleNavCases` | src/components/Menu.tsx:41-46 | `home` goes to `/`, `about` goes to `/` and scrolls to `about`, any other label goes to `/` plus the lowercased label; the destination is already lowercase |
| `Menu.NavItemDestinations` | src/components/Menu.tsx:64-65 | the five header buttons lead to `/`, `/` then About, `/services`, `/gallery`, `/contact` |
| `Menu.NavItemsRouted` | src/App.tsx:14-17 | every header button's destination is a route of the application |
| `Menu.MenuPage.constructor` | src/components/Menu.tsx:26 | the burger flag starts closed, with no requests issued |
| `Menu.MenuPage.ScrollToSection` | src/components/Menu.tsx:32-39 | the page asks for `/` and then a scroll to the section, and the burger flag is cleared |
| `Menu.MenuPage.HandleNav` | src/components/Menu.tsx:41-48 | the requests of `NavEffects` are appended and the burger flag is cleared |
| `Menu.MenuPage.ToggleMenu` | src/components/Menu.tsx:69 | the burger button flips its flag and issues no request |
| `Menu.MenuPage.GoHome` | src/components/Menu.tsx:56 | clicking the brand block asks for `/` and leaves the burger flag as it is |
| `Menu.ToggleTwice` | src/components/Menu.tsx:69 | two burger presses restore the flag and issue no request |

## Left out

- The auto-advance timer (`setInterval` every 8000 ms, cleared on unmount). Only the `NextSlide` step it invokes is modelled; scheduling is not.
- DOM scrolling. This covers `scrollIntoView`, `window.scrollTo` on mount and in the Home header, and the Home page's own `scrollToSection`. On the menu page, the scroll is the request value `ScrollTo(id)`. The 100 ms delay and the case of a missing element are not modelled.
- Route changes are recorded as `Navigate(path)` requests. The router itself is not modelled, and the menu page has no route in the routing table.
- `import.meta.glob` asset discovery happens in the build tool. The image and PDF path lists are inputs to the functions.
- `Menu.Lower`: `toLowerCase` is modelled for ASCII letters only. Unicode case mapping is not modelled.
- JSX and CSS rendering are left out, except the "index equals current index" class choice for slides and dots.
- Contact, Gallery, Services and ScrollToTop contain only markup or DOM side effects. The bundler configuration is not part of this model.
