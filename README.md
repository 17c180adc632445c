# Weather dashboard core, modelled in Dafny

This project models the part of the weather dashboard (`script.js`) that holds
logic rather than page plumbing. It has four parts:

- **Forecast** (`forecast.dfy`): the daily aggregation of the 3-hourly forecast
  list. One scan groups the samples by day label in an insertion-ordered
  dictionary:
  - the first sample of a day creates its entry;
  - each later sample raises the day's high and lowers its low, and leaves the
    icon and description alone.
  Then the first five days are rendered in insertion order. The scan and the
  rendering are imperative methods, each proved equal to a specification
  function: `GroupByDay` to the fold `Grouped`, `ShowFirstDays` to
  `FirstDays`, and their composition `AggregateForecast` to `DailyForecast`.
  A separate reference definition of the input's days (`KeySet`,
  `FirstIndex`) is tied to that fold by lemmas:
  - one entry per distinct day;
  - each high and low is an extreme of the day's samples and is attained by one of them;
  - the condition comes from the day's first sample;
  - days appear in first-appearance order, none is skipped, and at most five are shown.
- **Favorites** (`favorites.dfy`): a `Session` object holds the current city,
  the favorites list, the content of the list's local-storage slot and the
  highlight of the "add favorite" button. Favorites are matched by latitude and longitude.
  `ToggleFavorite` appends the city or splices out the first match, and is
  proved against the pure function `Toggled`. Lemmas state:
  - toggling a city that is not a favorite twice restores the list;
  - on a list without coordinate duplicates, toggling a favorite twice moves
    it to the end;
  - toggling preserves "no duplicate coordinates";
  - on a list without coordinate duplicates, toggling flips the city's membership;
  - toggling leaves every other place's membership alone.
- **Icons** (`icons.dfy`): the icon-code table and its two `cloud` fallbacks.
- **Theme** (`theme.dfy`): a `Page` object with the body's `data-theme`
  attribute and the stored preference. A missing or empty value counts as
  `light`, and toggling flips light and dark.

The day label (the browser's short weekday name of the timestamp) is the
parameter `dayOf: int -> string`. Temperatures are `real`. Each local-storage
slot is modelled as a field holding its content, `None` while nothing is
stored.

The favorites toggle returns nothing. Apart from re-rendering the favorites
menu (not modelled), it reports an add or a remove only through the button's
`active` class, set on an add and removed on a remove, and the model follows
that: `Session.ToggleFavorite` sets `buttonActive`. A city
that is not yet a favorite always round-trips: two toggles give back the list
(`ToggleTwiceRestores`). A city that is already a favorite does not, in
general. On a list without coordinate duplicates it ends up at the end, under
the name just looked up (`ToggleTwiceMovesToEnd`).

## Model

| member | source | states |
|---|---|---|
| Forecast.Widen | script.js:266-273 | a later sample of a known day makes the high the larger of the two highs and the low the smaller of the two lows (each equal to one of them), and keeps icon and description |
| Forecast.Add | script.js:256-273 | one scan step, keyed by the label of the sample's timestamp (a first sample seeds the entry, a later one widens it), keeps the dictionary well formed (every key listed once, listed keys = entries) and leaves the sample's day present |
| Forecast.Grouped | script.js:254-274 | the dictionary after the whole scan is well formed |
| Forecast.GroupByDay | script.js:254-274 | the imperative scan (create the entry, or widen it in place) ends with exactly the dictionary `Grouped` describes |
| Forecast.ShowFirstDays | script.js:277-293 | the rendering loop yields the first five keys, at most, in insertion order, each with its own entry |
| Forecast.AggregateForecast | script.js:254-293 | the grouping and rendering passes together produce `DailyForecast` of the input |
| Forecast.Summarize | script.js:279-288 | a rendered item shows the day's label, its high and low, and a drawing the page has: the table's drawing for a listed icon code, `cloud` for any other |
| Forecast.FirstDays | script.js:277-288 | a dictionary renders as min(#keys, 5) items, item p being key p with its entry |
| Forecast.DailyForecast | script.js:254-279 | the rendered forecast of a sample list has at most five items, and none for an empty list |
| Forecast.FirstIndex | script.js:255-265 | the position of a day's first sample: it has that day and no earlier sample does |
| Forecast.GroupedKeys | script.js:254-274 | the dictionary has an entry for exactly the distinct days of the input |
| Forecast.GroupedBounds | script.js:266-273 | every sample lies within its day's entry: its high is at most the entry's high, its low at least the entry's low |
| Forecast.GroupedMaxAttained | script.js:260-269 | each entry's high equals the high of some sample of that day |
| Forecast.GroupedMinAttained | script.js:260-272 | each entry's low equals the low of some sample of that day |
| Forecast.GroupedCondition | script.js:259-265 | each entry's icon and description are those of the day's first sample |
| Forecast.GroupedOrder | script.js:259-265 | dictionary keys are listed in the order of their days' first samples |
| Forecast.DailyForecastLength | script.js:277 | the rendered list has as many items as the input has distinct days, capped at five; an empty input renders nothing |
| Forecast.DailyForecastCondition | script.js:259-265 | each rendered day is an input day and shows the drawing selected by its first sample's icon code |
| Forecast.DailyForecastBounds | script.js:266-273 | each rendered high is at least, and each rendered low at most, that of every sample of the day |
| Forecast.DailyForecastAttained | script.js:260-272 | each rendered high and low is attained by some sample of the day |
| Forecast.DailyForecastOrder | script.js:277 | rendered days are input days, in strictly increasing order of first appearance |
| Forecast.DailyForecastNoneSkipped | script.js:277 | any day that first appears before a rendered day is itself rendered, ahead of it |
| Forecast.DailyForecastAllShown | script.js:277 | when the input spans at most five days, every one of them is rendered |
| Favorites.SamePlace | script.js:340 | two places are the same favorite exactly when they agree once name and country are disregarded (the same test is used at script.js:365) |
| Favorites.FindIndex | script.js:339-341 | -1 exactly when no favorite has the city's coordinates; otherwise the position of the first such favorite |
| Favorites.IsFavorite | script.js:364-366 | true exactly when some favorite has the city's coordinates, i.e. when `FindIndex` is not -1 |
| Favorites.ButtonActive | script.js:358-372 | the button is off with no current city, and otherwise on exactly when the city is a favorite |
| Favorites.Toggled | script.js:339-350 | an unmatched city is appended with all entries kept in place; otherwise the first match is removed and the rest keep their order |
| Favorites.ToggleTwiceRestores | script.js:339-350 | toggling a city that is not a favorite twice gives back the original list |
| Favorites.ToggleTwiceMovesToEnd | script.js:339-350 | on a duplicate-free list, toggling a favorite twice removes it from its place and appends the toggled city at the end |
| Favorites.ToggledUnique | script.js:339-350 | toggling keeps a list free of coordinate duplicates |
| Favorites.ToggleFlipsMembership | script.js:339-350 | on a duplicate-free list, toggling flips whether the city is a favorite |
| Favorites.ToggleKeepsOthers | script.js:339-350 | toggling a city does not change whether a place at other coordinates is a favorite |
| Favorites.Session.constructor | script.js:50-51 | at start no city is loaded, the list is the stored one or empty when nothing is stored, and storage is untouched |
| Favorites.Session.SelectCity | script.js:185-190 | a successful lookup makes the city the current city |
| Favorites.Session.ToggleFavorite | script.js:336-355 | with no city nothing changes; otherwise the list becomes `Toggled` and is written to the storage slot, and the button lights exactly when the city was added; a duplicate-free list stays so, and the button then matches `ButtonActive` |
| Favorites.Session.UpdateFavoriteButton | script.js:358-373 | the button highlight becomes `ButtonActive` of the current city and list |
| Icons.IconName | script.js:387 | a listed code gets its table name, any other code `cloud`; the name is always a drawing the page has |
| Icons.IconFor | script.js:386-404 | every code is mapped to one of the page's drawings |
| Icons.IconForTotal | script.js:386-404 | the second fallback never fires: listed codes get their table name, all other codes `cloud` |
| Icons.SharedCloudyDrawings | script.js:33-46 | day and night codes of groups 03, 04 get `cloud`; 50 gets `fog` |
| Icons.SharedPrecipitationDrawings | script.js:37-44 | day and night codes of groups 09, 11, 13 share `cloud-rain`, `cloud-lightning`, `snowflake` |
| Icons.DistinctDayNightDrawings | script.js:29-40 | groups 01, 02, 10 get a sun drawing by day and a moon drawing by night |
| Icons.UnlistedCodes | script.js:387 | a code not of the form two characters plus `d` or `n` always gets `cloud` |
| Theme.Effective | script.js:310 | the effective theme is never empty; it is `light` or the value itself, and a non-empty value is kept as it is |
| Theme.NextTheme | script.js:311 | the new theme is `light` or `dark`, and `dark` exactly when the current one is `light` |
| Theme.ToggleTwice | script.js:309-314 | two toggles from `light` or `dark` come back to it |
| Theme.MissingIsLight | script.js:310-311 | a page without a theme, or with an empty one, toggles to `dark` |
| Theme.Page.constructor | script.js:56-57 | at start the body's theme is the stored one, `light` when nothing (or an empty string) is stored |
| Theme.Page.ToggleTheme | script.js:309-314 | the body's theme becomes `NextTheme` of the old one and the same value is stored |

## Left out

- Network, geolocation and DOM work (fetching, the loader, error display, the favorites menu and list markup) is not modelled. These are I/O.
- The day label is the parameter `dayOf`. The browser's `toLocaleDateString` and its time zone are not modelled.
- JavaScript numbers are modelled as `real`, so NaN, infinities and -0 are not modelled. `Math.round` on display and the wind speed conversion are presentation only.
- The rendered markup is left out, including the SVG drawings. A rendered forecast item holds the drawing's name and the unrounded high and low.
- Local storage and JSON are left out. They are modelled as fields holding the value last written, and a stored value that fails to parse is not modelled.
- The test `!dailyForecast[day]` (script.js:259) is modelled as "`day` has no entry". The two agree for labels that are not names inherited from `Object.prototype` (such as `constructor` or `toString`) and not `__proto__`. The weekday labels never are, but the forecast lemmas hold for every `dayOf`, so they do not describe the page for such labels.
- The order of `Object.keys` is taken as insertion order. This holds for the weekday labels, which are not integer-like.
- Icons.IconName: inherited names such as `toString` or `__proto__` make the table lookup yield a non-string, which the model does not show. The second fallback then gives `cloud`, as `IconFor` does.
- Favorites.Session.ToggleFavorite: the button matching `ButtonActive` is stated only for lists without coordinate duplicates. A stored list may hold duplicates, and one toggle then removes only the first.
- Favorites.Session.constructor: the button's initial highlight comes from the page markup and is taken as the parameter `lit`.
- The asynchronous ordering of lookups (a slow response overwriting the current city) is not modelled.
