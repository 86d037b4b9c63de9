# Suwanee Health Hub: page state and tip search, in Dafny

This project models the state logic of a small React website for a wellness
business. Three components are modelled.

- **The health-tips page** (`HealthTips.js`). There is a fixed catalog of twelve
  tips in four categories (`nutrition`, `fitness`, `mentalHealth`, `sleep`).
  The page keeps a selected category and a search term. It shows the tips of
  that category whose lower-cased title or content contains the lower-cased
  term, in catalog order, and a "No tips found" message when none match.
  - Module `HealthTips` holds the catalog and the pure search, `Matches` and
    `Filter`.
  - Class `HealthTips.TipsPage` holds the fields `selectedCategory`,
    `searchTerm` and `filteredTips`. Its two setters end by running the filter
    effect, so `filteredTips` is always the filter of the current pair.
- **The application shell** (`App.js`). Class `AppShell.Shell` holds the
  `theme`, the `isNavOpen` flag of the mobile menu and the body class that the
  theme effect writes.
- **The about page** (`About.js`). Class `About.AboutPage` holds the selected
  tab and the accordion over the four team members. At most one member's
  biography is open.

Module `Text` supplies lower-casing and the substring test (`includes`). It
also proves the positional meaning of the substring test. Facts about the
catalog texts are proved one short literal at a time. For this reason each
long text is written as a concatenation of short string literals.

## Behaviour worth noting

- Searching "sleep" in the sleep category keeps all three tips, 10, 11 and
  12. Tip 11 matches because its content ends "time to sleep"
  (HealthTips.js:35).
- An unknown category id is never tolerated. The code would fail on the
  lookup, and only listed ids are ever selected. So `SetSelectedCategory`
  requires a listed id rather than doing nothing for an unknown one.
- Following a navigation link does not close the mobile menu, because the
  mobile links have no click handler.
- `toggleTheme` maps "light" to "dark" and every other value to "light". It
  is not a flip on arbitrary strings.

## Model

| member | source | states |
|---|---|---|
| `Text.Lower` | HealthTips.js:42-43 | `toLowerCase` on ASCII: same length, each upper-case letter replaced by the letter 32 code points above it, every other character kept |
| `Text.Contains` | HealthTips.js:42-43 | `includes`: the empty term is found in every text, and a term longer than the text is never found |
| `Text.LowerConcat` | HealthTips.js:42-43 | lower-casing a concatenation is concatenating the lower-cased parts |
| `Text.ContainsInSuffix` | HealthTips.js:42-43 | a term found in the tail of a text is found in the whole text |
| `Text.ContainsIffOccurs` | HealthTips.js:42-43 | the substring test used by the search (`includes`) holds exactly when the term occurs at some position of the text, the empty term included |
| `Text.LowerIdempotent` | HealthTips.js:42-43 | lower-casing twice equals lower-casing once, and no upper-case ASCII letter survives it |
| `HealthTips.CategoriesMatchCatalog` | HealthTips.js:10-38 | the category buttons are nutrition, fitness, mentalHealth, sleep in that order, and they are exactly the catalog's keys |
| `HealthTips.CatalogIdsUnique` | HealthTips.js:17-38 | no two positions anywhere in the catalog share a tip id (ids are render keys) |
| `HealthTips.Matches` | HealthTips.js:41-43 | the filter callback: the empty term keeps every tip, and a tip is kept only if the term fits in its title or its content |
| `HealthTips.MatchesIffOccurs` | HealthTips.js:41-43 | the tip is kept iff the lower-cased term occurs at some position of the lower-cased title or of the lower-cased content |
| `HealthTips.Filter` | HealthTips.js:41-44 | a tip is in the result iff it is in the category list and the lower-cased term is a substring of its lower-cased title or content; the result is no longer than the list |
| `HealthTips.KeptIndicesSorted` | HealthTips.js:41-44 | the kept positions lie in the list and strictly increase |
| `HealthTips.KeptIndicesExact` | HealthTips.js:41-44 | the kept positions lie in the list, strictly increase, and are exactly the positions of the matching tips |
| `HealthTips.FilterReadsKeptIndices` | HealthTips.js:41-44 | the filtered list is the category list read at the kept positions |
| `HealthTips.FilterKeepsOrder` | HealthTips.js:41-44 | the filter is stable: its result is the subsequence of the list made of exactly the matching tips, in their original relative order |
| `HealthTips.FilterEmptyTerm` | HealthTips.js:41-44 | with the empty term the whole list is returned unchanged |
| `HealthTips.FilterIdempotent` | HealthTips.js:41-44 | filtering the filtered list again with the same term returns the same list |
| `HealthTips.FilterIgnoresCase` | HealthTips.js:42-43 | a term and its lower-cased form select the same tips |
| `HealthTips.ShownIdsUnique` | HealthTips.js:96-98 | whatever the category and term, the shown tips have pairwise distinct ids |
| `HealthTips.SleepSearchKeepsAll` | HealthTips.js:33-37 | the term "sleep" on the sleep category keeps every tip, ids 10, 11, 12, in that order |
| `HealthTips.BedtimeRoutineMentionsSleep` | HealthTips.js:35 | tip 11 matches "sleep" through the last words of its content |
| `HealthTips.SleepTitlesMentionSleep` | HealthTips.js:34-36 | tips 10 and 12 match "sleep" through their titles |
| `HealthTips.BalancedDietMissesHydration` | HealthTips.js:19 | tip 1 matches neither "hydration" nor "hydration " |
| `HealthTips.PortionControlMissesHydration` | HealthTips.js:20 | tip 2 matches neither "hydration" nor "hydration " |
| `HealthTips.HydrationTipMatchesOnlyUntrimmed` | HealthTips.js:21 | tip 3 matches "hydration" but not "hydration " with a trailing space |
| `HealthTips.HydrationSearch` | HealthTips.js:17-22 | the term "HYDRATION" on the nutrition category yields exactly tip 3 |
| `HealthTips.TrailingSpaceIsLiteral` | HealthTips.js:66 | the term is stored untrimmed: "Hydration " with a trailing space finds nothing in the nutrition category |
| `HealthTips.TipsPage.constructor` | HealthTips.js:6-8 | the page starts on nutrition with an empty term, showing all nutrition tips in catalog order |
| `HealthTips.TipsPage.RunFilterEffect` | HealthTips.js:40-46 | the effect sets the shown list to the filter of the selected category's tips by the current term |
| `HealthTips.TipsPage.SetSearchTerm` | HealthTips.js:66 | typing stores the term verbatim, keeps the category, and recomputes the shown list from the new pair |
| `HealthTips.TipsPage.SetSelectedCategory` | HealthTips.js:77 | a category click selects a listed id, keeps the term, and recomputes the shown list against the new category |
| `HealthTips.TipsPage.NoTipsMessageShown` | HealthTips.js:112-119 | the "No tips found" message is shown exactly when no tip of the selected category matches the term |
| `AppShell.ToggledTheme` | App.js:22 | the toggled theme is always light or dark, and it is dark exactly when the old theme was light |
| `AppShell.ToggleTwiceRestores` | App.js:21-23 | two toggles restore a light or dark theme |
| `AppShell.ThemeButtonIcon` | App.js:57-59 | the theme button shows the moon exactly when a click would switch to dark |
| `AppShell.Shell.constructor` | App.js:14-19 | the shell starts light with the mobile menu closed, and the body class is light |
| `AppShell.Shell.ApplyThemeEffect` | App.js:17-19 | the effect makes the body class equal to the theme |
| `AppShell.Shell.ToggleTheme` | App.js:21-23 | the theme becomes its toggle and differs from the old one, the body class follows it, and the menu flag is unchanged |
| `AppShell.Shell.ToggleNav` | App.js:60-63 | the hamburger click negates the menu flag and leaves the theme and the body class unchanged |
| `AppShell.Shell.WrapperClassName` | App.js:39 | the wrapper's class starts with "app " and contains the theme |
| `AppShell.Shell.MobilePanelLinks` | App.js:69-82 | the mobile link panel is rendered iff the menu is open, and then it holds all five links in order |
| `About.TabKeysMatchContent` | About.js:9-25 | the tab keys are distinct and are exactly the keys of the tab content |
| `About.TabButtons` | About.js:50-60 | one button per tab key in key order (mission, values, impact), labelled with the tab's title; a button is highlighted exactly when its key is the selected tab, so at most one is |
| `About.NextExpanded` | About.js:98 | clicking the open member closes the accordion; clicking any other member opens that member alone |
| `About.RenderedBios` | About.js:90-116 | at most one bio is rendered; one is rendered exactly when the expanded index falls among the members, and it is that member's bio |
| `About.AboutPage.constructor` | About.js:6-7 | the page starts on the mission tab with no member expanded |
| `About.AboutPage.SelectTab` | About.js:56 | a tab click selects that key and leaves the accordion unchanged |
| `About.AboutPage.ToggleMember` | About.js:98 | a member click applies the accordion rule, keeps the expanded index within the team or empty, and leaves the tab unchanged |
| `About.AboutPage.ShownTab` | About.js:73-75 | the shown tab's title is the label of the highlighted tab button |
| `About.AboutPage.VisibleBios` | About.js:89-117 | no bio is open when nothing is expanded; otherwise exactly the expanded member's bio is open |

## Left out

- Case folding covers ASCII letters only. JavaScript's `toLowerCase` applies full Unicode rules, but every catalog text and the example terms are ASCII.
- Effects run after a render. So `filteredTips` is the empty list on the first render, and after every `setSearchTerm` or `setSelectedCategory` one render still shows the old list (HealthTips.js:8, 40-46). Likewise `document.body.className` trails `theme` by one render (App.js:17-19). The model runs both effects at the end of the constructor and of every setter and toggle. `TipsPage.Valid` and `Shell.Valid` therefore describe the settled state, and the intermediate renders are not represented.
- An unknown category key would make the filter throw on the lookup. `SetSelectedCategory` requires a listed id instead, because the buttons only ever pass listed ids.
- Page routing (`Router`, `Switch`, `Route`, `Link`) belongs to a routing library whose code is not part of this model. So there is no active-view state and no navigate operation.
- Navigating does not close the mobile menu in this code, so no such rule is modelled.
- Home.js is not part of this model. It is a window scroll listener and a floating-point parallax offset.
- The `Events` and `Contact` components are not part of this model.
- Animation props, markup, styling and icons are presentation and are left out. The icons of the tab and category buttons are left out too. The theme button's moon/sun choice is kept.
- `About.AboutPage.ShownTab`: only the title of the shown tab is tied to the highlighted button. The content and icon come from the same map entry and are not stated separately.
