# ECOMICRO microgreens guide: a Dafny model of its screen logic

ECOMICRO is a mobile-oriented React front-end for growing microgreens. It has
a static species catalog and screens that search and filter it. It also keeps
a favorites set, stored in the browser's local storage, and shows an
onboarding carousel. This project models the deterministic rules inside those
screens and proves what they guarantee:

- `SpeciesData` (species_data.dfy): the `Species`/`TimelineStep` records, the
  ordered catalog `speciesList`, and `getSpeciesById`, which is `find` semantics.
- `FavoritesStore` (favorites_store.dfy): the favorites `Set<string>` that three
  screens keep, its toggle, and its stored shape. A JavaScript `Set` iterates in
  insertion order and `Array.from(set)` lists it in that order, so the set is a
  duplicate-free sequence in insertion order. Storing it and loading it back
  gives the same sequence.
- `Favorites` (favorites.dfy): the favorites screen. It covers the selection
  list, batch removal (the `forEach` delete loop is a method with a loop
  invariant), the three-facet filter record, `hasActiveFilters`, the time
  `<select>` lookup, and the conjunctive filter over favorite species.
- `CultivationGuide` (cultivation_guide.dfy): the case-insensitive name search,
  the favorites toggle, and clear-search.
- `Tips` (tips.dfy): the category-or-none selector, the title search, and their
  conjunction over the static tip list. Tips loads the same stored 'favorites'
  array as the species screens, toggles tip ids in memory, and never writes
  them back.
- `Onboarding` (onboarding.dfy): the bounded slide counter, `nextSlide`, the
  button label, and skip. `onComplete` is counted, not run.
- `SpeciesDetail` (species_detail.dfy): the `getIcon` table with its aliases and
  default, the not-found view, and the two local toggles.
- `Seqs` and `Text` are helpers. `Seqs` holds `Array.prototype.filter` and its
  laws. `Text` holds `toLowerCase`, `includes` and decimal printing.

Where a screen changes its state (React `useState`), the screen is a class and
each handler is a method whose `ensures` states the new state. The pure
expressions (`filter` callbacks, `find`, the updater functions) are functions,
and lemmas state their properties.

The `Species` interface declares no `benefits`, `cultivationTimeValue` or
`color` field, and no catalog entry has them. The favorites screen still reads
them. The model adds them as `Option` fields, and `None` stands for the
`undefined` the screen really reads. The time and colour tests then fail
quietly, as `undefined >= min` and `undefined === color` do. The benefit test
throws (see Findings).

JavaScript truthiness is kept. A benefit or colour of `''` does not filter,
but it still counts in `hasActiveFilters`, which tests `!== null`. An active
category of `''` selects every tip.

What the code does that a reader might not expect:

- The guide's search matches species names only; flavour text and benefit tags
  are not searched.
- The favorites screen filters by benefit, time and colour; difficulty and
  light are not filters.
- Stored favorites that fail to parse are not turned into an empty set, because
  `JSON.parse` errors are not caught.
- Searching "ruc" does not find 'Rúcula'. Its lowered name is 'rúcula', whose
  'ú' is not 'u'. `CultivationGuide.UnaccentedSearchFindsNothing` proves this,
  and "rúc" does find it.
- There is no per-species progress store: the detail screen's step checkboxes
  are a TODO.

## Model

| member | source | states |
|---|---|---|
| SpeciesData.FindById | src/data/speciesData.ts:88-90 | a found species has the requested id and is in the list; nothing is found exactly when no entry has that id |
| SpeciesData.GetSpeciesById | src/data/speciesData.ts:88-90 | the returned species is in the catalog and has the requested id; nothing is returned exactly when no catalog entry has that id |
| SpeciesData.FindByIdFirst | src/data/speciesData.ts:89 | when several entries share the id, the first one in list order is returned (`find` semantics) |
| SpeciesData.CatalogIdsDistinct | src/data/speciesData.ts:25-85 | the five catalog ids are pairwise distinct |
| SpeciesData.CatalogLookupUnambiguous | src/data/speciesData.ts:88-90 | looking up any catalog entry's id returns exactly that entry |
| SpeciesData.UnknownIdNotFound | src/data/speciesData.ts:88-90 | an id outside the five catalog ids finds nothing |
| SpeciesData.RabaneteDaysIncreasing | src/data/speciesData.ts:34-40 | the 'rabanete-roxo' timeline has five steps numbered day 1 to day 5 |
| Text.Lower | src/components/CultivationGuide.tsx:26 | `toLowerCase` keeps the length, lowers every character in place and leaves no capital |
| Text.Contains | src/components/CultivationGuide.tsx:26 | `String.prototype.includes`; `Text.ContainsIffOccurs` states its contract |
| Text.ContainsIffOccurs | src/components/CultivationGuide.tsx:26 | `includes` holds exactly when the term occurs as a contiguous block at some position |
| Seqs.Filter | src/components/Favorites.tsx:62 | `Array.prototype.filter`: the result is no longer than the input and holds only input elements that pass; `Seqs.FilterMembership` gives the converse and `Seqs.FilterIsSubsequence` the order |
| FavoritesStore.Add | src/components/Favorites.tsx:63 | `add` makes `x` a member and changes no other membership; an absent `x` goes at the end and a present one leaves the set as it was; no duplicates arise |
| FavoritesStore.Delete | src/components/Favorites.tsx:62 | `delete` removes `x`, keeps every other member in its insertion order, and keeps the set duplicate-free |
| FavoritesStore.FromArray | src/components/Favorites.tsx:44 | `new Set(array)` has no duplicates and exactly the array's elements |
| FavoritesStore.Load | src/components/CultivationGuide.tsx:12-16 | no stored array gives the empty set; a stored array gives a set of exactly its ids |
| FavoritesStore.Toggle | src/components/Favorites.tsx:59-66 | the toggle flips the membership of `id` and of no other id, and keeps the set duplicate-free (the same updater is at CultivationGuide.tsx:31-41 and Tips.tsx:107-114) |
| FavoritesStore.ToggleTwice | src/components/CultivationGuide.tsx:31-41 | toggling twice restores every membership; the exact order comes back when `id` was absent, otherwise `id` moves to the end |
| FavoritesStore.LoadAfterSave | src/components/CultivationGuide.tsx:14-22 | loading the stored `Array.from(favorites)` gives back the same set in the same order |
| Favorites.WithFilter | src/components/Favorites.tsx:87-89 | `handleFilterChange(k, v)` sets field `k` to `v` and leaves the other two fields unchanged |
| Favorites.HasActive | src/components/Favorites.tsx:116 | `hasActiveFilters` is true exactly when some field is not null |
| Favorites.SelectValue | src/components/Favorites.tsx:169 | a `<select>` value of '' becomes null; any other value is kept as it is |
| Favorites.FilterFavoritesShows | src/components/Favorites.tsx:96-114 | a species is shown exactly when it is a favorite and matches benefit (membership), time (inclusive at both ends) and colour (equality) together |
| Favorites.FilterFavoritesOrdered | src/components/Favorites.tsx:96 | the shown species are an order-preserving subsequence of the catalog |
| Favorites.NoFiltersShowsFavorites | src/components/Favorites.tsx:96-114 | with no facet active the screen shows exactly the favorite species, in catalog order |
| Favorites.AsWrittenThrowsOrAgrees | src/components/Favorites.tsx:101-103 | the filter as written throws exactly when a benefit is selected and some favorite has no benefit list; otherwise it equals the corrected filter |
| Favorites.AsWrittenThrowsOnCatalog | src/components/Favorites.tsx:96-103 | with favorite 'rucula' and benefit 'Foco', the filter as written throws on the real catalog |
| Favorites.FindOption | src/components/Favorites.tsx:193 | the found option's value is `${min}-${max}` equal to the chosen value; nothing is found exactly when no option has that value |
| Favorites.TimeChoice | src/components/Favorites.tsx:186-194 | a chosen range is always one of the three options' ranges |
| Favorites.TimeChoices | src/components/Favorites.tsx:188-201 | "0-7", "7-14" and "14-100" give their ranges, and every other value, '' included, gives null |
| Favorites.FilterFavorites | src/components/Favorites.tsx:96-114 | the corrected filter; its contract is stated by `Favorites.FilterFavoritesShows`, `Favorites.FilterFavoritesOrdered` and `Favorites.NoFiltersShowsFavorites` |
| Favorites.FilterFavoritesAsWritten | src/components/Favorites.tsx:96-114 | the filter as written; `Favorites.AsWrittenThrowsOrAgrees` states when it throws and that it otherwise agrees with the corrected filter |
| Favorites.RemoveEach | src/components/Favorites.tsx:79-83 | deleting the selected ids one by one leaves the favorites minus the selected ids, in their order |
| Favorites.SelectToggle | src/components/Favorites.tsx:68-72 | the selection updater; `Favorites.SelectToggleSpec` states its contract |
| Favorites.SelectToggleSpec | src/components/Favorites.tsx:68-72 | the selection toggle flips only `id`: every copy is removed when present, otherwise it is appended; the other ids keep their relative order |
| Favorites.FavoritesScreen.constructor | src/components/Favorites.tsx:42-52 | the screen starts with the loaded favorites, an empty selection, the panel closed and every filter null |
| Favorites.FavoritesScreen.ToggleFavorite | src/components/Favorites.tsx:59-66 | the favorites become the toggled set and stay duplicate-free |
| Favorites.FavoritesScreen.SelectSpecies | src/components/Favorites.tsx:68-72 | the selection becomes the toggled selection |
| Favorites.FavoritesScreen.ClearSelection | src/components/Favorites.tsx:74-76 | the selection becomes empty |
| Favorites.FavoritesScreen.RemoveSelected | src/components/Favorites.tsx:78-85 | the favorites lose every selected id and keep the rest in order, and the selection becomes empty |
| Favorites.FavoritesScreen.FilterChange | src/components/Favorites.tsx:87-89 | the filter record becomes the record with one key updated |
| Favorites.FavoritesScreen.ClearFilters | src/components/Favorites.tsx:91-94 | every filter becomes null, so `hasActiveFilters` is false, and the panel closes |
| Favorites.FavoritesScreen.ToggleFilterPanel | src/components/Favorites.tsx:134 | the filter button flips the panel's visibility |
| Favorites.FavoritesScreen.CloseFilterPanel | src/components/Favorites.tsx:155 | the panel's close button hides it |
| CultivationGuide.NameSearch | src/components/CultivationGuide.tsx:25-28 | `filteredSpecies`; `CultivationGuide.NameSearchSpec` states its contract |
| CultivationGuide.NameSearchSpec | src/components/CultivationGuide.tsx:25-28 | the result is the order-preserving subsequence of species whose lowered name contains the lowered term |
| CultivationGuide.EmptySearchKeepsAll | src/components/CultivationGuide.tsx:25-28 | an empty term yields the whole list |
| CultivationGuide.SearchIgnoresCase | src/components/CultivationGuide.tsx:26 | searching for the lowered term gives the same result as the term itself |
| CultivationGuide.SameLoweredSameResult | src/components/CultivationGuide.tsx:26 | terms that differ only in case give the same result |
| CultivationGuide.AccentedSearchFindsRucula | src/components/CultivationGuide.tsx:25-28 | "rúc" finds exactly 'Rúcula' |
| CultivationGuide.UnaccentedSearchFindsNothing | src/components/CultivationGuide.tsx:25-28 | "ruc" finds nothing, not even 'Rúcula' |
| CultivationGuide.UnknownTermFindsNothing | src/components/CultivationGuide.tsx:25-28 | "xyz" finds nothing |
| CultivationGuide.GuideScreen.constructor | src/components/CultivationGuide.tsx:10-17 | the screen starts with an empty term, the loaded favorites and the panel closed |
| CultivationGuide.GuideScreen.SetSearchTerm | src/components/CultivationGuide.tsx:62 | typing sets the term |
| CultivationGuide.GuideScreen.ClearSearch | src/components/CultivationGuide.tsx:43-45 | the term becomes '' and the whole catalog is listed again |
| CultivationGuide.GuideScreen.ToggleFavorite | src/components/CultivationGuide.tsx:31-41 | the favorites become the toggled set and stay duplicate-free |
| CultivationGuide.GuideScreen.ToggleFilterPanel | src/components/CultivationGuide.tsx:81 | the filter button flips the panel flag |
| CultivationGuide.Remount | src/components/CultivationGuide.tsx:12-22 | a screen mounted on what another screen stored shows the same favorites |
| Tips.FilterTips | src/components/Tips.tsx:116-121 | `filteredTips`; `Tips.FilterTipsSpec` states its contract |
| Tips.FilterTipsSpec | src/components/Tips.tsx:116-121 | a tip is shown exactly when (no category, or its category is the active one) and (empty search, or its lowered title contains the lowered term); the tips keep their order |
| Tips.EmptyTermShortcutRedundant | src/components/Tips.tsx:118-119 | the `=== ''` shortcut agrees with plain `includes` |
| Tips.NoFilterShowsAll | src/components/Tips.tsx:116-121 | with no category and an empty search every tip is shown |
| Tips.UnknownCategoryShowsNothing | src/components/Tips.tsx:117 | a category that no tip has shows nothing |
| Tips.NextCategory | src/components/Tips.tsx:123-125 | clicking the active category clears it; any other click selects the clicked one |
| Tips.ClickTwice | src/components/Tips.tsx:123-125 | two clicks on one category restore the selection exactly when it was none or that category |
| Tips.CategoriesMatchTips | src/components/Tips.tsx:16-97 | each of the seven category buttons belongs to exactly one tip, the tip at the same position |
| Tips.EveryCategorySelectsOneTip | src/components/Tips.tsx:177-183 | with no search, each category button shows exactly its one tip |
| Tips.TipsScreen.constructor | src/components/Tips.tsx:99-105 | the screen starts with no category, an empty term and the loaded favorites |
| Tips.TipsScreen.SetSearchTerm | src/components/Tips.tsx:146 | typing sets the term |
| Tips.TipsScreen.ClearSearch | src/components/Tips.tsx:127 | the term becomes '' and the category is untouched; with no category every tip shows |
| Tips.TipsScreen.CategoryClick | src/components/Tips.tsx:123-125 | the category becomes the selector's next value |
| Tips.TipsScreen.ToggleFavorite | src/components/Tips.tsx:107-114 | the favorites become the toggled set and stay duplicate-free |
| Onboarding.ButtonLabel | src/components/Onboarding.tsx:29-35 | the label is 'Começar agora' exactly on the last slide, and 'Próximo →' on every other |
| Onboarding.Next | src/components/Onboarding.tsx:21-27 | `nextSlide`; `Onboarding.NextSpec` and `Onboarding.PressSpec` state its contract |
| Onboarding.NextSpec | src/components/Onboarding.tsx:21-27 | before the last slide a press moves one slide on without completing; on the last it completes and stays; the index stays on the slides |
| Onboarding.PressSpec | src/components/Onboarding.tsx:21-27 | after `k` presses the index is the start plus `k`, capped at the last slide, and `onComplete` has run once per press beyond it |
| Onboarding.FromStartToCompletion | src/components/Onboarding.tsx:6-27 | from slide 0, `slides.length - 1` presses reach the last slide without completing, and the next press completes |
| Onboarding.OnboardingScreen.constructor | src/components/Onboarding.tsx:4 | the index starts at 0 and nothing has completed |
| Onboarding.OnboardingScreen.NextSlide | src/components/Onboarding.tsx:21-27 | the state becomes one press later, and the index stays on the slides |
| Onboarding.OnboardingScreen.Skip | src/components/Onboarding.tsx:39-41 | skip calls `onComplete` from any slide and leaves the index alone |
| SpeciesDetail.GetIcon | src/components/SpeciesDetail.tsx:6-16 | `getIcon`; `SpeciesDetail.GetIconByOwnName`, `SpeciesDetail.GetIconAliases` and `SpeciesDetail.GetIconDefault` state its contract |
| SpeciesDetail.GetIconByOwnName | src/components/SpeciesDetail.tsx:8-9 | each of the nine icons (Clock … ArrowLeft) is found under its own name |
| SpeciesDetail.GetIconAliases | src/components/SpeciesDetail.tsx:11-13 | 'Moon', 'Sprout' and 'Scissors' give Droplets |
| SpeciesDetail.GetIconDefault | src/components/SpeciesDetail.tsx:15 | the result is Library exactly for 'Library' and for names outside the table |
| SpeciesDetail.StepIcons | src/components/SpeciesDetail.tsx:99-100 | one icon per timeline step, step `i` showing `getIcon` of that step's icon name |
| SpeciesDetail.RabaneteStepIcons | src/components/SpeciesDetail.tsx:99-100 | the 'rabanete-roxo' timeline shows Droplets, Droplets, Droplets, Sun, Droplets |
| SpeciesDetail.ViewFor | src/components/SpeciesDetail.tsx:26-42 | an id no catalog entry has gives the not-found view; otherwise the detail view shows the species with that id |
| SpeciesDetail.DetailScreen.constructor | src/components/SpeciesDetail.tsx:27-28 | both flags start false |
| SpeciesDetail.DetailScreen.ToggleFavorite | src/components/SpeciesDetail.tsx:44 | flips the favorite flag only |
| SpeciesDetail.DetailScreen.ToggleCultivated | src/components/SpeciesDetail.tsx:45 | flips the cultivated flag only |

## Findings

| source | as written | input that shows it | evidently intended | confidence | as-written member | corrected member |
|---|---|---|---|---|---|---|
| src/components/Favorites.tsx:101-103 | `species.benefits.includes(benefit)` runs on catalog entries that have no `benefits` field, so it throws a TypeError and the screen's render fails | favorites = ['rucula'] and the benefit 'Foco' selected | a species without a benefit list does not match an active benefit, as the time and colour facets already treat missing fields | high; not executed | Favorites.AsWrittenThrowsOnCatalog | Favorites.FilterFavoritesShows |

`Favorites.FilterFavoritesAsWritten` models the filter as written, and
`Favorites.AsWrittenThrowsOrAgrees` says exactly when it throws.
`Favorites.FilterFavorites` is the corrected filter, which the screen uses.

## Left out

- Rendering: JSX, CSS classes, and all of tailwind.config.js.
- src/components/SplashScreen.tsx and src/App.tsx are not part of this model. They hold timers, `requestAnimationFrame` and `document.body` styling.
- src/components/Home.tsx and src/components/SpeciesCard.tsx are not part of this model. They are presentation, with a colour-class lookup and navigation callbacks.
- Local storage and JSON: the stored 'favorites' value is an input, the already-parsed array, or `None` when the key is absent. `JSON.parse` failures and non-array JSON are not modelled. The save effect is the function `Stored()`, not a write.
- Callbacks into code outside the screens: `navigate(...)`, `onSelectSpecies`, `onBack` and the `console.log` batch buttons are not modelled. `onComplete` is only counted.
- Image URLs of species, timeline steps and tips are not modelled: nothing uses them but rendering.
- The guide's filter panel is a flag only, because the panel is not implemented in the source.
- SpeciesData.Species: `cultivationTimeValue` is an integer, where JavaScript holds a `number` that could be fractional; no catalog entry has the field, so nothing observable changes.
- Text.LowerChar: folds only ASCII capitals and the Latin-1 capitals U+00C0..U+00DE (except U+00D7). Every other character is left unchanged, so full Unicode `toLowerCase` (e.g. Greek or Cyrillic) is not modelled.
- SpeciesDetail.GetIcon: names inherited from `Object.prototype` (such as 'constructor' or 'toString') would return an inherited function in JavaScript; the model returns Library for them.
