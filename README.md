# DaveX site scripts: stats cache, download links and theme toggle

A Dafny model of the parts of the DaveX marketing site's client script that
have behaviour worth stating. The site ships two near-identical variants of
the script, `js/script.js` and `script.js`. They differ only in their
hard-coded repository lists and element ids. The model states the shared
logic once. Module `Config` holds both variants' lists.

- `Stats` models `GitHubStatsManager`. It keeps a per-repository cache
  `repo -> {data, timestamp}` with a freshness window of 300000 ms. A lookup
  first writes the placeholder `...` into the repository's star and fork
  elements. A fresh entry (strictly younger than the window) is rendered
  without a request. Otherwise the outcome of the request decides. A parsed
  ok reply overwrites the entry with the receive time and is rendered. A
  rejected request, a non-ok status or an unparsable body writes `Error` into
  the present elements and leaves the cache alone. A count renders as `N/A`
  when it is absent or falsy (0 included). Otherwise it renders as
  `formatNumber(count)`: the `M` test comes first, then `K`, then the plain
  integer. `fetchAllStats` is modelled as a loop over the repository list.
  The lemmas prove that each repository's cache entry and elements depend
  only on that repository's own outcome.
- `Download` models `DownloadManager.setupDownloadLink` and its `init` loop.
  A missing anchor is left alone. Otherwise the anchor gets its label. Its
  `href` is the latest release's `zipball_url` only for a release link whose
  reply is ok and carries a non-empty value; every other path, the error path
  included, gives the fallback URL. `target="_blank"` and
  `rel="noopener noreferrer"` are always set.
- `Theme` models `ThemeManager`. `toggle` maps `light` to `dark` and any
  other value to `light`. `applyTheme` writes the body class and the meta
  colour, and persists the theme under `Davex-theme`.
- `Dom` is the browser state the managers share: elements by id (an id that
  is a key is an element `getElementById` finds), the body class, the
  `theme-color` meta tag and `localStorage`. `Http` is the outcome of a
  request, passed in rather than performed. `Decimal` has the numerals of
  `toString()` and `toFixed(1)` and the parsers for their round trips.

The request outcome and the clock are parameters. `now` is the time of the
freshness check. The attempt's `doneAt` is the `Date.now()` read after the
response arrived, and that time is what gets stored in the cache.

The model keeps three edge cases of the code:

- A JSON `null` body is still cached. Reading its fields then throws inside
  the `try`, so the present elements show `Error`, and show it again on
  every fresh lookup until the entry expires (`Stats.Updated`,
  `Stats.RenderedTexts`).
- A stored empty theme string counts as missing (`||`), so the system
  preference decides (`Theme.InitialTheme`).
- The `K` branch rounds to one decimal, so 999950 to 999999 show as
  `1000.0K` (`Stats.FormatNumberTopOfKRange`).

## Model

| member | source | states |
|---|---|---|
| `Dom.SetText` | js/script.js:289-290 | `el.textContent = text` guarded by `if (el)`: only the element with that id changes, and only when the page has it; no element appears or disappears |
| `Decimal.NatToString` | js/script.js:370 | `num.toString()` of a non-negative integer: one or more digits, with no leading zero except for `0` itself |
| `Decimal.ParseNatToString` | js/script.js:370 | the numeral reads back as the number it was written from |
| `Decimal.CanonicalNatUnique` | js/script.js:370 | a canonical numeral is exactly the one written for its value, so the value and the canonical form together fix the string |
| `Decimal.IntToString` | js/script.js:370 | `num.toString()` of any integer: a leading minus exactly for negative values, then a canonical numeral; never `-0` |
| `Decimal.ParseIntToString` | js/script.js:370 | the integer numeral, sign included, reads back as the integer |
| `Decimal.CanonicalIntUnique` | js/script.js:370 | a canonical integer numeral is exactly the one written for its value |
| `Decimal.ToFixed1` | js/script.js:365 | `toFixed(1)` of an integer quotient has the shape `digits.digit`, with a canonical whole part |
| `Decimal.ToFixed1Value` | js/script.js:365-368 | the tenths `toFixed(1)` shows are within half a tenth of `n / unit` |
| `Decimal.CanonicalFixed1Unique` | js/script.js:365-368 | a canonical `digits.digit` numeral is exactly the one written for its number of tenths |
| `Stats.FormatNumber` | js/script.js:363-371 | at least 1000000 gives a canonical `ddd.d` followed by `M`, and that comparison comes first; 1000 up to 999999 gives a canonical `ddd.d` followed by `K`; below 1000 gives the canonical integer numeral of the count. With `FormatNumberScaled` and the `Canonical...Unique` lemmas this fixes the string (identical at script.js:357-365) |
| `Stats.FormatNumberScaled` | js/script.js:364-369 | with the suffix stripped, the `M` or `K` numeral equals count / 1000000 or count / 1000, rounded to the nearest tenth |
| `Stats.FormatNumberExamples` | js/script.js:363-371 | 950 gives `950`, 1500 gives `1.5K`, 2500000 gives `2.5M` |
| `Stats.FormatNumberTopOfKRange` | js/script.js:367-368 | 999999 gives `1000.0K`: the K branch can round up to a thousand |
| `Stats.RenderCount` | js/script.js:323-328 | `N/A` exactly when the count is absent or falsy, 0 included; for a truthy count, `formatNumber(count)` |
| `Stats.PaintAll` | js/script.js:316-317 | both present sinks show the text; every other element and every attribute is unchanged |
| `Stats.Updated` | js/script.js:321-330 | `updateElements` throws exactly when the body is `null` and a sink is present; otherwise the present sinks show the rendered counts, an absent sink is untouched, and nothing else changes |
| `Stats.Rendered` | js/script.js:311-318 | after `updateElements` inside the `try`, the sinks show the rendered counts, or `Error` when it threw; only the two sinks' texts change |
| `Stats.BeginLookup` | js/script.js:286-297 | up to the `await`: the cache is unchanged; a fresh entry's data is rendered; with no fresh entry both present sinks show `...` while the request is pending; only the two sinks' texts change |
| `Stats.CompleteLookup` | js/script.js:298-318 | after the request settles: a failure (rejection, non-ok status, bad JSON) leaves the cache and shows `Error`; a parsed ok reply sets that repo's entry to `{data, doneAt}` and shows the rendered counts |
| `Stats.FetchOne` | js/script.js:282-319 | a fresh entry: cache unchanged, sinks rendered from the cached data. Stale or missing entry with a failed attempt (rejection, non-ok status, bad JSON): cache unchanged, sinks `Error`. Stale or missing entry with a parsed ok reply: that repo's entry becomes `{data, doneAt}`, the others unchanged, sinks rendered. Always: only the two sinks' texts change (identical at script.js:276-313) |
| `Stats.FreshEntryIgnoresAttempt` | js/script.js:293-297 | with a fresh entry, the result does not depend on the request outcome: no request is made |
| `Stats.SecondLookupWithinTtlIsServedFromCache` | js/script.js:293-309 | after a successful request, a lookup less than 300000 ms after it settled finds a fresh entry, makes no request, keeps the cache and shows the same texts |
| `Stats.ExpiredEntryIsRefetched` | js/script.js:294 | an entry 300000 ms old or older is not fresh; a successful refetch overwrites its timestamp |
| `Stats.FetchOneFrame` | js/script.js:292-318 | a lookup leaves the cache entry and sinks of a repository with a different name and different sinks untouched |
| `Stats.FetchOneLocal` | js/script.js:292-318 | what a lookup leaves for its own repository depends only on that repository's entry and sinks beforehand |
| `Stats.FetchAll` | js/script.js:277-280 | a batch keeps every element and never evicts a cache entry; only configured repositories gain or change an entry |
| `Stats.FetchAllFrame` | js/script.js:277-280 | a batch leaves the entry and sinks of a repository disjoint from all configured ones untouched |
| `Stats.FetchAllIndependent` | js/script.js:277-280 | in a well-formed batch, each repository ends with exactly what a lookup of it alone, from the same start, gives |
| `Stats.FetchAllIsolation` | script.js:271-274 | in a batch, each repository shows its own outcome (cached texts, `Error`, or its fresh data) and its cache entry follows its own attempt, whatever the others' attempts were |
| `Stats.GitHubStatsManager.constructor` | js/script.js:247-275 | the configured list and an empty cache, then the first batch: the cache and page are `FetchAll` from an empty cache |
| `Stats.GitHubStatsManager.PaintSinks` | js/script.js:289-290 | the state update of `PaintAll` on the page |
| `Stats.GitHubStatsManager.UpdateElements` | js/script.js:321-330 | writes the sinks as `Updated` says; reports a throw, after which nothing has been written |
| `Stats.GitHubStatsManager.BeginFetchRepoStats` | js/script.js:286-297 | the page is `BeginLookup` of the old one; `fetched` holds exactly when a request is left pending |
| `Stats.GitHubStatsManager.CompleteFetchRepoStats` | js/script.js:298-318 | the cache and page are `CompleteLookup` of the old ones |
| `Stats.GitHubStatsManager.FetchRepoStats` | js/script.js:282-319 | the new cache and page are `FetchOne` of the old ones; `fetched` holds exactly when the entry was not fresh |
| `Stats.GitHubStatsManager.FetchAllStats` | js/script.js:277-280 | the new cache and page are `FetchAll` of the old ones over the configured list |
| `Theme.Toggled` | js/script.js:25 | the result is `light` or `dark`, and it is `dark` exactly when the theme was `light` (identical at script.js:25) |
| `Theme.ToggleTwiceRestores` | js/script.js:24-26 | from `light` or `dark`, two toggles restore the theme |
| `Theme.ToggleTwiceFromOtherValue` | js/script.js:25 | from any other value, one toggle gives `light`, two give `dark` |
| `Theme.ToggledTimesParity` | script.js:24-26 | from `light` or `dark`, an even number of toggles restores the theme, an odd number gives the other |
| `Theme.MetaColor` | js/script.js:18-21 | `#0f172a` exactly for `dark`, `#6366f1` otherwise |
| `Theme.InitialTheme` | js/script.js:3-4 | a stored non-empty theme wins; a missing or empty one gives `dark` exactly when the system prefers dark |
| `Theme.ThemeManager.constructor` | js/script.js:2-10 | the initial theme, applied: body class, persisted value, meta colour; page elements unchanged |
| `Theme.ThemeManager.ApplyTheme` | js/script.js:14-22 | body class `<theme>-theme`; `Davex-theme` stored as the theme, other keys kept; meta colour set only when the tag exists |
| `Theme.ThemeManager.Toggle` | js/script.js:24-27 | the theme becomes `Toggled` of the old one, and the stored `Davex-theme` equals the new theme |
| `Download.ZipUrl` | js/script.js:419-443 | the release's `zipball_url` exactly for a release link with an ok, parsed reply carrying a non-empty one; the fallback URL on every other path, the `catch` path included; never empty unless the fallback is (identical at script.js:405-429) |
| `Download.NonReleaseMakesNoRequest` | js/script.js:421-428 | a non-release link ignores any reply and uses the fallback |
| `Download.NotOkFallsBack` | js/script.js:424 | a release reply with a non-ok status, 404 for one, gives the fallback |
| `Download.SetupLink` | js/script.js:410-443 | missing anchor: nothing changes. Otherwise: the label becomes `btnText`, `href` is `ZipUrl`, `target` is `_blank`, `rel` is `noopener noreferrer`; other attributes and elements unchanged |
| `Download.SetupAll` | js/script.js:405-408 | the page keeps its elements, and anchors outside the configured list are unchanged |
| `Download.SetupAllFrame` | js/script.js:405-408 | setting up links leaves every other anchor unchanged |
| `Download.SetupAllLinksEach` | js/script.js:405-408 | after `init`, every present configured anchor carries its own label, the URL its own reply decides, `target` and `rel`, and keeps every other attribute it had; no anchor appears or disappears |
| `Download.DownloadManager.constructor` | js/script.js:375-403 | the configured list, then `init()`: the page is `SetupAll` of the old one |
| `Download.DownloadManager.SetLink` | js/script.js:430-432 | sets `href`, `target` and `rel` on the anchor |
| `Download.DownloadManager.SetupDownloadLink` | js/script.js:410-444 | the new page is `SetupLink` of the old one |
| `Download.DownloadManager.Init` | script.js:391-394 | the new page is `SetupAll` of the old one over the configured list |
| `Config.ConfigurationsWellFormed` | script.js:248-261 | both variants' stats and download lists use each repository, sink and anchor once, so the independence lemmas apply (js/script.js:248-267 and 376-401; script.js:370-387) |
| `Config.FallbacksNonEmpty` | js/script.js:376-401 | in both variants every link resolves to a non-empty URL; in js/script.js only the first link can use a release archive |

## Left out

- Requests and JSON parsing (`fetch`, `response.json()`, the GitHub API). Each outcome is passed in as `Http.Reply`. A body is `null` or a value whose fields are read; counts are integers or absent; `zipball_url` is a string or absent.
- The `Promise.allSettled` fan-out, the five-minute `setInterval` and duplicate in-flight requests. A batch runs its lookups one after another, with one `now` for the whole batch. In the code, every cache check runs before any reply arrives. For a list that names each repository and each sink once the outcome is the same, and the independence lemmas assume such a list. When two repositories share a sink, the code leaves whichever reply settled last in it; the model leaves the later list entry's.
- Stats.GitHubStatsManager.constructor: runs the first batch but does not start the five-minute interval, because scheduling is not modelled.
- Stats.FetchOne: the pending state with `...` shown is the end of `Stats.BeginLookup`. Other lookups that run while a request is pending are not interleaved with it.
- The count-up animation (`animateNumbers`, `animateCounter`, `easeOutCubic`). It uses floating point and `requestAnimationFrame`. Its last frame writes `formatNumber(count)`, the text the model already shows, with one exception: when a repository's star and fork ids name the same element and the fork count renders as `N/A`, the animation still runs the star count into that element, so the code ends with the star count's text where the model shows `N/A`.
- Stats.FormatNumber, Stats.FormatNumberScaled, Decimal.ToFixed1, Decimal.ToFixed1Value (through `Decimal.Tenths`): an exact tie between two tenths (count ending in 50 for `K`, in 50000 for `M`) is rounded up. In JavaScript the result depends on the binary double nearest the quotient, so 1450 gives `1.5K` here and `1.4K` in the code. Counts are unbounded integers, not doubles, and the exponential form `toFixed` uses above 10^21 is not modelled.
- `console.error` logging, and the click listener that reports downloads to analytics (`trackDownload`, gtag). On the error path the listener is not attached.
- Theme.ThemeManager.Toggle: the temporary body `transition` style and its 300 ms `setTimeout` are not modelled, because they are cosmetic.
- The system-theme watcher (`watchSystemTheme`, `matchMedia` listener) and the toggle button's click wiring (`setupToggle`), because they are browser event glue.
- The other managers (PWA, copy, tabs, navigation, disclaimer, performance, animation, deployment, contact), the `DaveXApp` root and the injected CSS. They are DOM and browser-API wrappers with no stated behaviour.
