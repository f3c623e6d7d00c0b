/** The guide screen (src/components/CultivationGuide.tsx): the catalog narrowed
    by a case-insensitive search on species names, and the favorites set. */
module CultivationGuide {
  import opened Wrappers
  import opened Seqs
  import opened Text
  import opened SpeciesData
  import FavoritesStore

  /** The filter callback: `species.name.toLowerCase().includes(term.toLowerCase())`. */
  predicate NameMatches(s: Species, term: string) {
    Contains(Lower(s.name), Lower(term))
  }

  function NameMatchesTerm(term: string): Species -> bool {
    (s: Species) => NameMatches(s, term)
  }

  /** `filteredSpecies`. */
  function NameSearch(list: seq<Species>, term: string): seq<Species> {
    Filter(list, NameMatchesTerm(term))
  }

  /** The result is the order-preserving subsequence of the list whose lowered
      name contains the lowered term. */
  lemma NameSearchSpec(list: seq<Species>, term: string, s: Species)
    ensures IsSubsequence(NameSearch(list, term), list)
    ensures s in NameSearch(list, term) <==> s in list && Contains(Lower(s.name), Lower(term))
  {
    FilterIsSubsequence(list, NameMatchesTerm(term));
    FilterMembership(list, NameMatchesTerm(term), s);
  }

  /** An empty term keeps the whole list. */
  lemma EmptySearchKeepsAll(list: seq<Species>)
    ensures NameSearch(list, "") == list
  {
    forall i | 0 <= i < |list| ensures NameMatches(list[i], "") {
      ContainsEmpty(Lower(list[i].name));
    }
    FilterAllPass(list, NameMatchesTerm(""));
  }

  /** Case does not matter: searching for the lowered term gives the same result. */
  lemma SearchIgnoresCase(list: seq<Species>, term: string)
    ensures NameSearch(list, Lower(term)) == NameSearch(list, term)
  {
    LowerIdempotent(term);
    SameLoweredSameResult(list, Lower(term), term);
  }

  /** Terms whose lowered forms agree give the same result. */
  lemma SameLoweredSameResult(list: seq<Species>, t1: string, t2: string)
    requires Lower(t1) == Lower(t2)
    ensures NameSearch(list, t1) == NameSearch(list, t2)
  {
    FilterExtensional(list, NameMatchesTerm(t1), NameMatchesTerm(t2));
  }

  /** A lowered name without the term's second character does not match. */
  lemma LacksSecondChar(s: Species, term: string, upper: char)
    requires |term| > 1 && Lower(term) == term
    requires term[1] !in s.name && upper !in s.name
    requires forall d :: LowerChar(d) == term[1] ==> d == term[1] || d == upper
    ensures !NameMatches(s, term)
  {
    LacksLowered(s.name, term[1], upper);
    MissingCharNotContained(Lower(s.name), term, 1);
  }

  /** The catalog's names, in list order. */
  const CatalogNames: seq<string> := ["Rabanete Roxo", "Brócolis", "Mostarda", "Girassol", "Rúcula"]

  lemma CatalogNamesAgree()
    ensures |SpeciesList| == |CatalogNames|
    ensures forall i :: 0 <= i < |SpeciesList| ==> SpeciesList[i].name == CatalogNames[i]
  {
  }

  /** The first `n` species of `list`, whose names are `names`, lack a term whose
      second character (or its capital `upper`) none of those names has. */
  lemma NamesLackTerm(list: seq<Species>, names: seq<string>, n: nat, term: string, upper: char)
    requires n <= |list| && n <= |names|
    requires forall i :: 0 <= i < n ==> list[i].name == names[i]
    requires |term| > 1 && Lower(term) == term
    requires forall i :: 0 <= i < n ==> term[1] !in names[i] && upper !in names[i]
    requires forall d :: LowerChar(d) == term[1] ==> d == term[1] || d == upper
    ensures forall i :: 0 <= i < n ==> !NameMatches(list[i], term)
  {
    forall i | 0 <= i < n ensures !NameMatches(list[i], term) {
      LacksSecondChar(list[i], term, upper);
    }
  }

  /** Neither 'ú' nor 'Ú' occurs in the first four names. */
  lemma FirstFourLackU()
    ensures forall i :: 0 <= i < 4 ==> 'ú' !in CatalogNames[i] && 'Ú' !in CatalogNames[i]
  {
  }

  /** Neither 'u' nor 'U' occurs in the first four names. */
  lemma NamesLackPlainU()
    ensures forall i :: 0 <= i < 4 ==> 'u' !in CatalogNames[i] && 'U' !in CatalogNames[i]
  {
  }

  /** Neither 'y' nor 'Y' occurs in any name. */
  lemma NamesLackY()
    ensures forall i :: 0 <= i < 5 ==> 'y' !in CatalogNames[i] && 'Y' !in CatalogNames[i]
  {
  }

  /** Of the catalog's names, only 'Rúcula' matches "rúc". */
  lemma AccentedTermMatches()
    ensures forall i :: 0 <= i < 4 ==> !NameMatches(SpeciesList[i], "rúc")
    ensures NameMatches(SpeciesList[4], "rúc")
  {
    CatalogNamesAgree();
    FirstFourLackU();
    NamesLackTerm(SpeciesList, CatalogNames, 4, "rúc", 'Ú');
    RuculaLowered();
    assert StartsWith(Lower(SpeciesList[4].name), "rúc");
  }

  /** No catalog name matches "ruc". */
  lemma UnaccentedTermMatches()
    ensures forall i :: 0 <= i < 5 ==> !NameMatches(SpeciesList[i], "ruc")
  {
    CatalogNamesAgree();
    NamesLackPlainU();
    NamesLackTerm(SpeciesList, CatalogNames, 4, "ruc", 'U');
    RuculaLowered();
    RucNotInRucula();
  }

  /** "rúc" finds the single species 'Rúcula'. */
  lemma AccentedSearchFindsRucula()
    ensures NameSearch(SpeciesList, "rúc") == [SpeciesList[4]]
  {
    AccentedTermMatches();
    OnlyLastMatches(SpeciesList, "rúc");
  }

  /** When only the last of five species matches, the search finds just that one. */
  lemma OnlyLastMatches(list: seq<Species>, term: string)
    requires |list| == 5
    requires forall i :: 0 <= i < 4 ==> !NameMatches(list[i], term)
    requires NameMatches(list[4], term)
    ensures NameSearch(list, term) == [list[4]]
  {
    NoneMatch(list[..4], term);
    FilterAppend(list[..4], [list[4]], NameMatchesTerm(term));
    FilterAllPass([list[4]], NameMatchesTerm(term));
    assert list[..4] + [list[4]] == list;
  }

  /** The unaccented "ruc" finds nothing, not even 'Rúcula': its 'ú' is not 'u'. */
  lemma UnaccentedSearchFindsNothing()
    ensures NameSearch(SpeciesList, "ruc") == []
  {
    UnaccentedTermMatches();
    NoneMatch(SpeciesList, "ruc");
  }

  /** A term that no name contains, "xyz", finds nothing. */
  lemma UnknownTermFindsNothing()
    ensures NameSearch(SpeciesList, "xyz") == []
  {
    CatalogNamesAgree();
    NamesLackY();
    NamesLackTerm(SpeciesList, CatalogNames, 5, "xyz", 'Y');
    NoneMatch(SpeciesList, "xyz");
  }

  lemma RuculaLowered()
    ensures Lower("Rúcula") == "rúcula"
  {
  }

  lemma RucNotInRucula()
    ensures !Contains("rúcula", "ruc")
  {
    var s, term := "rúcula", "ruc";
    ContainsIffOccurs(s, term);
    forall i | 0 <= i ensures !OccursAt(s, term, i) {
      if i + 3 <= |s| {
        assert s[i..i + 3][0] == s[i] && s[i..i + 3][1] == s[i + 1];
        if i == 0 {
          assert s[1] != 'u';
        } else {
          assert s[i] != 'r';
        }
      }
    }
  }

  lemma NoneMatch(list: seq<Species>, term: string)
    requires forall i :: 0 <= i < |list| ==> !NameMatches(list[i], term)
    ensures NameSearch(list, term) == []
  {
    FilterNonePass(list, NameMatchesTerm(term));
  }

  /** The screen's state: the search term, the favorites set and the filter-panel flag. */
  class GuideScreen {
    var searchTerm: string
    var favorites: seq<string>
    var showFilters: bool

    ghost predicate Valid()
      reads this
    {
      Distinct(favorites)
    }

    /** Mounting: empty search, favorites loaded from the stored array, panel closed. */
    constructor (saved: Option<seq<string>>)
      ensures Valid()
      ensures searchTerm == "" && favorites == FavoritesStore.Load(saved) && !showFilters
    {
      searchTerm := "";
      favorites := FavoritesStore.Load(saved);
      showFilters := false;
    }

    /** The species the screen lists. */
    function FilteredSpecies(): seq<Species>
      reads this
    {
      NameSearch(SpeciesList, searchTerm)
    }

    /** The array the persistence effect stores: `Array.from(favorites)`. */
    function Stored(): seq<string>
      reads this
    {
      favorites
    }

    /** The search input's `onChange`. */
    method SetSearchTerm(term: string)
      modifies this`searchTerm
      ensures searchTerm == term
    {
      searchTerm := term;
    }

    /** `clearSearch`: the term becomes '' and the whole catalog is listed again. */
    method ClearSearch()
      modifies this`searchTerm
      ensures searchTerm == ""
      ensures FilteredSpecies() == SpeciesList
    {
      searchTerm := "";
      EmptySearchKeepsAll(SpeciesList);
    }

    method ToggleFavorite(id: string)
      requires Valid()
      modifies this`favorites
      ensures Valid()
      ensures favorites == FavoritesStore.Toggle(old(favorites), id)
    {
      favorites := FavoritesStore.Toggle(favorites, id);
    }

    /** The filter button: opens or closes the (unimplemented) panel. */
    method ToggleFilterPanel()
      modifies this`showFilters
      ensures showFilters == !old(showFilters)
    {
      showFilters := !showFilters;
    }
  }

  /** A guide screen mounted on what another one stored shows the same favorites. */
  method Remount(screen: GuideScreen) returns (remounted: GuideScreen)
    requires screen.Valid()
    ensures remounted.favorites == screen.favorites
  {
    FavoritesStore.LoadAfterSave(screen.Stored());
    remounted := new GuideScreen(Some(screen.Stored()));
  }
}
