/** The favorites screen (src/components/Favorites.tsx): the favorite species,
    a selection list for batch actions, and a three-facet filter over the
    favorite species. */
module Favorites {
  import opened Wrappers
  import opened Seqs
  import opened Text
  import opened SpeciesData
  import FavoritesStore

  /** An inclusive range of cultivation days, `{ min, max }`. */
  datatype TimeRange = TimeRange(min: int, max: int)

  /** The filter record `{ benefit, time, color }`; `None` is `null`. */
  datatype Filters = Filters(benefit: Option<string>, time: Option<TimeRange>, color: Option<string>)

  const NoFilters: Filters := Filters(None, None, None)

  /** One call of `handleFilterChange(key, value)`: the key and its new value. */
  datatype FilterUpdate =
    | SetBenefit(benefit: Option<string>)
    | SetTime(time: Option<TimeRange>)
    | SetColor(color: Option<string>)

  /** What the error thrown by a property access on `undefined` says. */
  datatype TypeError = UndefinedBenefits(speciesId: string)

  /** JavaScript truthiness of a `string | null`: `null` and `''` are false. */
  predicate Truthy(o: Option<string>) {
    o.Some? && o.value != ""
  }

  /** `{ ...prev, [key]: value }`: sets the updated key and leaves the other two unchanged. */
  function WithFilter(f: Filters, u: FilterUpdate): (r: Filters)
    ensures u.SetBenefit? ==> r.benefit == u.benefit && r.time == f.time && r.color == f.color
    ensures u.SetTime? ==> r.time == u.time && r.benefit == f.benefit && r.color == f.color
    ensures u.SetColor? ==> r.color == u.color && r.benefit == f.benefit && r.time == f.time
  {
    match u
    case SetBenefit(b) => f.(benefit := b)
    case SetTime(t) => f.(time := t)
    case SetColor(c) => f.(color := c)
  }

  /** `Object.values(activeFilters).some(value => value !== null)`. */
  function HasActive(f: Filters): (r: bool)
    ensures r <==> f != NoFilters
  {
    f.benefit.Some? || f.time.Some? || f.color.Some?
  }

  /** The value a benefit or colour `<select>` passes on: `e.target.value || null`. */
  function SelectValue(value: string): (r: Option<string>)
    ensures r.None? <==> value == ""
    ensures r.Some? ==> r.value == value && Truthy(r)
  {
    if value == "" then None else Some(value)
  }

  /** Benefit facet. A species without a benefit list does not match an active benefit. */
  predicate MatchesBenefit(s: Species, b: Option<string>) {
    !Truthy(b) || (s.benefits.Some? && b.value in s.benefits.value)
  }

  /** Time facet, inclusive at both ends. A missing day count compares false, as
      `undefined >= min` does. */
  predicate MatchesTime(s: Species, t: Option<TimeRange>) {
    t.None? ||
    (s.cultivationTimeValue.Some? && t.value.min <= s.cultivationTimeValue.value <= t.value.max)
  }

  /** Colour facet: exact equality; a missing colour is never equal to an active one. */
  predicate MatchesColor(s: Species, c: Option<string>) {
    !Truthy(c) || s.color == Some(c.value)
  }

  /** The filter callback: a favorite, and every facet matches. */
  predicate Shown(s: Species, favorites: seq<string>, f: Filters) {
    s.id in favorites && MatchesBenefit(s, f.benefit) && MatchesTime(s, f.time) && MatchesColor(s, f.color)
  }

  function ShownBy(favorites: seq<string>, f: Filters): Species -> bool {
    (s: Species) => Shown(s, favorites, f)
  }

  function IsFavorite(favorites: seq<string>): Species -> bool {
    (s: Species) => s.id in favorites
  }

  /** `filteredSpecies`: the favorite species of `list` that pass every facet, in list order. */
  function FilterFavorites(list: seq<Species>, favorites: seq<string>, f: Filters): seq<Species> {
    Filter(list, ShownBy(favorites, f))
  }

  /** A species is shown exactly when it is in the list, is a favorite, and
      passes all three facets (a conjunction). */
  lemma FilterFavoritesShows(list: seq<Species>, favorites: seq<string>, f: Filters, s: Species)
    ensures s in FilterFavorites(list, favorites, f) <==>
            s in list && s.id in favorites
            && MatchesBenefit(s, f.benefit) && MatchesTime(s, f.time) && MatchesColor(s, f.color)
  {
    FilterMembership(list, ShownBy(favorites, f), s);
  }

  /** The shown species keep the catalog's order. */
  lemma FilterFavoritesOrdered(list: seq<Species>, favorites: seq<string>, f: Filters)
    ensures IsSubsequence(FilterFavorites(list, favorites, f), list)
  {
    FilterIsSubsequence(list, ShownBy(favorites, f));
  }

  /** With no facet active, the screen shows exactly the favorite species, in list order. */
  lemma NoFiltersShowsFavorites(list: seq<Species>, favorites: seq<string>, f: Filters)
    requires !Truthy(f.benefit) && f.time.None? && !Truthy(f.color)
    ensures FilterFavorites(list, favorites, f) == Filter(list, IsFavorite(favorites))
  {
    FilterExtensional(list, ShownBy(favorites, f), IsFavorite(favorites));
  }

  // ---- The filter as written: `species.benefits.includes(...)` on a catalog
  // ---- entry that has no `benefits` throws a TypeError.

  /** The benefit test as written: an active benefit on a species without a
      benefit list throws. */
  function BenefitAsWritten(s: Species, b: Option<string>): Result<bool, TypeError> {
    if !Truthy(b) then Success(true)
    else if s.benefits.None? then Failure(UndefinedBenefits(s.id))
    else Success(b.value in s.benefits.value)
  }

  /** `speciesList.filter(...)` as written: the favourite test comes first, so only
      favourites reach the benefit test; the first throw aborts the whole filter. */
  function FilterFavoritesAsWritten(list: seq<Species>, favorites: seq<string>, f: Filters)
    : Result<seq<Species>, TypeError>
  {
    if list == [] then Success([])
    else if list[0].id !in favorites then FilterFavoritesAsWritten(list[1..], favorites, f)
    else match BenefitAsWritten(list[0], f.benefit)
      case Failure(e) => Failure(e)
      case Success(mb) =>
        var rest := FilterFavoritesAsWritten(list[1..], favorites, f);
        if rest.Failure? then rest
        else if mb && MatchesTime(list[0], f.time) && MatchesColor(list[0], f.color)
        then Success([list[0]] + rest.value)
        else rest
  }

  /** Some favourite lacks a benefit list while a benefit is selected. */
  predicate Throws(list: seq<Species>, favorites: seq<string>, f: Filters) {
    Truthy(f.benefit) && exists i :: 0 <= i < |list| && list[i].id in favorites && list[i].benefits.None?
  }

  /** The filter as written throws exactly when a favourite lacks a benefit list
      while a benefit is selected, and otherwise agrees with FilterFavorites. */
  lemma {:induction false} AsWrittenThrowsOrAgrees(list: seq<Species>, favorites: seq<string>, f: Filters)
    ensures FilterFavoritesAsWritten(list, favorites, f).Failure? <==> Throws(list, favorites, f)
    ensures !Throws(list, favorites, f) ==>
            FilterFavoritesAsWritten(list, favorites, f) == Success(FilterFavorites(list, favorites, f))
  {
    if list != [] {
      AsWrittenThrowsOrAgrees(list[1..], favorites, f);
      if Throws(list[1..], favorites, f) {
        var i :| 0 <= i < |list[1..]| && list[1..][i].id in favorites && list[1..][i].benefits.None?;
        assert list[i + 1] == list[1..][i];
      }
      if Throws(list, favorites, f) && !(list[0].id in favorites && list[0].benefits.None?) {
        var i :| 0 <= i < |list| && list[i].id in favorites && list[i].benefits.None?;
        assert i > 0 && list[1..][i - 1] == list[i];
      }
    }
  }

  /** With 'rucula' as the only favourite and the benefit 'Foco' selected, the
      screen as written throws: no catalog entry has a benefit list. */
  lemma AsWrittenThrowsOnCatalog()
    ensures FilterFavoritesAsWritten(SpeciesList, ["rucula"], Filters(Some("Foco"), None, None)).Failure?
  {
    AsWrittenThrowsOrAgrees(SpeciesList, ["rucula"], Filters(Some("Foco"), None, None));
    assert SpeciesList[4].id in ["rucula"] && SpeciesList[4].benefits.None?;
  }

  // ---- The time facet's options.

  /** One entry of the time `<select>`: its label and its range. */
  datatype TimeOption = TimeOption(caption: string, min: nat, max: nat)

  const TimeOptions: seq<TimeOption> := [
    TimeOption("Até 7 dias", 0, 7),
    TimeOption("7-14 dias", 7, 14),
    TimeOption("Mais de 14 dias", 14, 100)
  ]

  /** The option's `<select>` value, `${min}-${max}`. */
  function OptionValue(o: TimeOption): string {
    NatToString(o.min) + "-" + NatToString(o.max)
  }

  /** `timeOptions.find(opt => `${opt.min}-${opt.max}` === value)`. */
  function FindOption(options: seq<TimeOption>, value: string): (r: Option<TimeOption>)
    ensures r.Some? ==> r.value in options && OptionValue(r.value) == value
    ensures r.None? <==> forall i :: 0 <= i < |options| ==> OptionValue(options[i]) != value
  {
    if options == [] then None
    else if OptionValue(options[0]) == value then Some(options[0])
    else FindOption(options[1..], value)
  }

  /** The time `onChange`: the range of the chosen option, or `null`. */
  function TimeChoice(value: string): (r: Option<TimeRange>)
    ensures r.Some? ==> exists o :: o in TimeOptions && r.value == TimeRange(o.min, o.max)
  {
    match FindOption(TimeOptions, value)
    case None => None
    case Some(o) => Some(TimeRange(o.min, o.max))
  }

  /** "0-7", "7-14" and "14-100" select their ranges; every other value,
      including the empty "Todos" value, clears the time facet. */
  lemma TimeChoices(value: string)
    ensures TimeChoice("0-7") == Some(TimeRange(0, 7))
    ensures TimeChoice("7-14") == Some(TimeRange(7, 14))
    ensures TimeChoice("14-100") == Some(TimeRange(14, 100))
    ensures TimeChoice(value).Some? <==> value in ["0-7", "7-14", "14-100"]
  {
    OptionValues();
    FindOptionOfThree(TimeOptions, value);
    FindOptionOfThree(TimeOptions, "0-7");
    FindOptionOfThree(TimeOptions, "7-14");
    FindOptionOfThree(TimeOptions, "14-100");
  }

  /** `find` over three options tries them in order. */
  lemma FindOptionOfThree(options: seq<TimeOption>, value: string)
    requires |options| == 3
    ensures FindOption(options, value) ==
      if OptionValue(options[0]) == value then Some(options[0])
      else if OptionValue(options[1]) == value then Some(options[1])
      else if OptionValue(options[2]) == value then Some(options[2])
      else None
  {
    assert options[1..][1..][1..] == [];
  }

  /** The three options' `<select>` values. */
  lemma OptionValues()
    ensures |TimeOptions| == 3
    ensures OptionValue(TimeOptions[0]) == "0-7"
    ensures OptionValue(TimeOptions[1]) == "7-14"
    ensures OptionValue(TimeOptions[2]) == "14-100"
  {
    assert NatToString(TimeOptions[2].max) == "100";
  }

  // ---- `handleRemoveSelected`'s state updater.

  /** `selectedSpecies.forEach(id => newFavorites.delete(id))` on a copy of the
      favorites: the favorites without the selected ids, in their order. */
  method RemoveEach(favorites: seq<string>, selected: seq<string>) returns (next: seq<string>)
    ensures next == Filter(favorites, NotIn(selected))
    ensures forall y :: y in next <==> y in favorites && y !in selected
  {
    next := favorites;
    assert Filter(favorites, NotIn(selected[..0])) == favorites by {
      FilterAllPass(favorites, NotIn(selected[..0]));
    }
    for i := 0 to |selected|
      invariant next == Filter(favorites, NotIn(selected[..i]))
    {
      FilterFilter(favorites, NotIn(selected[..i]), Other(selected[i]), NotIn(selected[..i + 1]));
      next := FavoritesStore.Delete(next, selected[i]);
    }
    assert selected[..|selected|] == selected;
    forall y ensures y in next <==> y in favorites && y !in selected {
      FilterMembership(favorites, NotIn(selected), y);
    }
  }

  /** `handleSelectSpecies`: `prev.includes(id) ? prev.filter(item => item !== id) : [...prev, id]`. */
  function SelectToggle(prev: seq<string>, id: string): seq<string> {
    if id in prev then Filter(prev, Other(id)) else prev + [id]
  }

  /** The selection toggle flips the membership of `id` only, removes every copy
      of it when present, appends it at the end otherwise, and keeps the
      relative order of the other selected ids. */
  lemma SelectToggleSpec(prev: seq<string>, id: string)
    ensures forall y :: y in SelectToggle(prev, id) <==> (if y == id then id !in prev else y in prev)
    ensures id !in prev ==> SelectToggle(prev, id) == prev + [id]
    ensures Filter(SelectToggle(prev, id), Other(id)) == Filter(prev, Other(id))
  {
    if id in prev {
      forall y ensures y in SelectToggle(prev, id) <==> (if y == id then id !in prev else y in prev) {
        FilterMembership(prev, Other(id), y);
      }
      FilterAllPass(Filter(prev, Other(id)), Other(id));
    } else {
      FilterAppend(prev, [id], Other(id));
      assert Filter([id], Other(id)) == [];
    }
  }

  /** The screen's state: the favorites set, the selected ids, the filter panel
      flag and the filter record. */
  class FavoritesScreen {
    var favorites: seq<string>
    var selected: seq<string>
    var showFilters: bool
    var filters: Filters

    ghost predicate Valid()
      reads this
    {
      Distinct(favorites)
    }

    /** Mounting: favorites loaded from the stored array, nothing selected, panel closed, no filter. */
    constructor (saved: Option<seq<string>>)
      ensures Valid()
      ensures favorites == FavoritesStore.Load(saved)
      ensures selected == [] && !showFilters && filters == NoFilters
    {
      favorites := FavoritesStore.Load(saved);
      selected := [];
      showFilters := false;
      filters := NoFilters;
    }

    /** The species the screen lists. */
    function FilteredSpecies(): seq<Species>
      reads this
    {
      FilterFavorites(SpeciesList, favorites, filters)
    }

    /** `hasActiveFilters`. */
    function HasActiveFilters(): bool
      reads this
    {
      HasActive(filters)
    }

    /** The array the persistence effect stores: `Array.from(favorites)`. */
    function Stored(): seq<string>
      reads this
    {
      favorites
    }

    method ToggleFavorite(id: string)
      requires Valid()
      modifies this`favorites
      ensures Valid()
      ensures favorites == FavoritesStore.Toggle(old(favorites), id)
    {
      favorites := FavoritesStore.Toggle(favorites, id);
    }

    method SelectSpecies(id: string)
      modifies this`selected
      ensures selected == SelectToggle(old(selected), id)
    {
      selected := SelectToggle(selected, id);
    }

    method ClearSelection()
      modifies this`selected
      ensures selected == []
    {
      selected := [];
    }

    /** `handleRemoveSelected`: the favorites lose every selected id, the selection empties. */
    method RemoveSelected()
      requires Valid()
      modifies this`favorites, this`selected
      ensures Valid()
      ensures favorites == Filter(old(favorites), NotIn(old(selected)))
      ensures forall y :: y in favorites <==> y in old(favorites) && y !in old(selected)
      ensures selected == []
    {
      FilterDistinct(favorites, NotIn(selected));
      favorites := RemoveEach(favorites, selected);
      selected := [];
    }

    method FilterChange(u: FilterUpdate)
      modifies this`filters
      ensures filters == WithFilter(old(filters), u)
    {
      filters := WithFilter(filters, u);
    }

    /** `clearFilters`: every facet back to `null`, and the panel closes. */
    method ClearFilters()
      modifies this`filters, this`showFilters
      ensures filters == NoFilters && !HasActiveFilters()
      ensures !showFilters
    {
      filters := NoFilters;
      showFilters := false;
    }

    /** The filter button: opens or closes the panel. */
    method ToggleFilterPanel()
      modifies this`showFilters
      ensures showFilters == !old(showFilters)
    {
      showFilters := !showFilters;
    }

    /** The panel's close button. */
    method CloseFilterPanel()
      modifies this`showFilters
      ensures !showFilters
    {
      showFilters := false;
    }
  }
}
