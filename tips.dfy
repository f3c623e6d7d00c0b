/** The tips screen (src/components/Tips.tsx): a static list of tips narrowed by
    an optional category and a title search, and a favorites set of tip ids. */
module Tips {
  import opened Wrappers
  import opened Seqs
  import opened Text
  import FavoritesStore

  /** A tip. Its image URL is not modelled. */
  datatype Tip = Tip(
    id: string,
    category: string,
    title: string,
    description: string,
    fullDescription: string,
    bonusTip: string,
    relatedSpecies: seq<string>)

  /** `tipsData`, in source order. */
  const TipsData: seq<Tip> := [
    Tip("tip1", "💧 Regas", "Como saber a hora certa de regar seus microverdes",
      "Observe o substrato: se estiver seco ao toque, regue...",
      "Regue pela manhã para evitar fungos. Use um borrifador...",
      "Evite regar em excesso, o encharcamento favorece o aparecimento de fungos.",
      ["rabanete", "brocolis"]),
    Tip("tip2", "☀️ Iluminação", "A importância da luz solar para o crescimento",
      "Microverdes precisam de luz para fotossíntese...",
      "A luz ideal é indireta. Evite exposição direta ao sol forte...",
      "Use luz artificial se não houver luz natural suficiente.",
      ["alfafa", "girassol"]),
    Tip("tip3", "🐛 Pragas", "Como identificar e combater pulgões",
      "Pulgões são pequenos insetos que se alimentam da seiva...",
      "Lave as folhas com água e sabão neutro. Use óleo de neem...",
      "Inspecione regularmente as folhas para detectar pragas.",
      ["mostarda", "rucula"]),
    Tip("tip4", "🧪 Nutrientes", "A importância dos nutrientes no substrato",
      "Nutrientes essenciais para o crescimento saudável...",
      "Use substrato rico em matéria orgânica. Adicione fertilizantes...",
      "Evite o excesso de fertilizantes, pode prejudicar o crescimento.",
      ["ervilha", "couve"]),
    Tip("tip5", "🧼 Higiene", "A importância da higiene no cultivo",
      "A higiene é fundamental para evitar doenças...",
      "Lave bem as mãos antes de manusear as sementes. Limpe os recipientes...",
      "Use água filtrada para evitar contaminação.",
      ["chia", "linhaça"]),
    Tip("tip6", "⏳ Tempo de cultivo", "Como otimizar o tempo de cultivo",
      "O tempo de cultivo varia de acordo com a espécie...",
      "Escolha espécies com tempo de cultivo curto. Use técnicas de germinação...",
      "Monitore a temperatura e a umidade para acelerar o crescimento.",
      ["mostarda", "rucula"]),
    Tip("tip7", "🌈 Dicas avançadas", "Técnicas avançadas de cultivo",
      "Aprenda técnicas avançadas para aumentar a produtividade...",
      "Use hidroponia. Faça aeração do substrato...",
      "Monitore a temperatura e a umidade para acelerar o crescimento.",
      ["ervilha", "couve"])
  ]

  /** The category buttons, `Object.keys(categoryIcons)`, in order. */
  const Categories: seq<string> := [
    "💧 Regas", "☀️ Iluminação", "🐛 Pragas", "🧪 Nutrientes",
    "🧼 Higiene", "⏳ Tempo de cultivo", "🌈 Dicas avançadas"
  ]

  /** `!activeCategory || tip.category === activeCategory`: `null` and '' select every category. */
  predicate MatchesCategory(t: Tip, active: Option<string>) {
    active.None? || active.value == "" || t.category == active.value
  }

  /** `searchTerm === '' || tip.title.toLowerCase().includes(searchTerm.toLowerCase())`. */
  predicate MatchesSearch(t: Tip, term: string) {
    term == "" || Contains(Lower(t.title), Lower(term))
  }

  predicate TipShown(t: Tip, active: Option<string>, term: string) {
    MatchesCategory(t, active) && MatchesSearch(t, term)
  }

  function ShownBy(active: Option<string>, term: string): Tip -> bool {
    (t: Tip) => TipShown(t, active, term)
  }

  /** `filteredTips`. */
  function FilterTips(tips: seq<Tip>, active: Option<string>, term: string): seq<Tip> {
    Filter(tips, ShownBy(active, term))
  }

  /** A tip is shown exactly when it passes both the category and the search
      test, and the shown tips keep the list's order. */
  lemma FilterTipsSpec(tips: seq<Tip>, active: Option<string>, term: string, t: Tip)
    ensures t in FilterTips(tips, active, term) <==> t in tips && MatchesCategory(t, active) && MatchesSearch(t, term)
    ensures IsSubsequence(FilterTips(tips, active, term), tips)
  {
    FilterMembership(tips, ShownBy(active, term), t);
    FilterIsSubsequence(tips, ShownBy(active, term));
  }

  /** The `searchTerm === ''` shortcut changes nothing: the empty term is included in every title. */
  lemma EmptyTermShortcutRedundant(t: Tip, term: string)
    ensures MatchesSearch(t, term) <==> Contains(Lower(t.title), Lower(term))
  {
    if term == "" {
      ContainsEmpty(Lower(t.title));
    }
  }

  /** With no category and an empty search every tip is shown. */
  lemma NoFilterShowsAll(tips: seq<Tip>)
    ensures FilterTips(tips, None, "") == tips
  {
    FilterAllPass(tips, ShownBy(None, ""));
  }

  /** Selecting a category that no tip has shows nothing. */
  lemma UnknownCategoryShowsNothing(tips: seq<Tip>, c: string, term: string)
    requires c != "" && forall i :: 0 <= i < |tips| ==> tips[i].category != c
    ensures FilterTips(tips, Some(c), term) == []
  {
    FilterNonePass(tips, ShownBy(Some(c), term));
  }

  /** `handleCategoryClick(c)`: clicking the active category clears it, any other click selects `c`. */
  function NextCategory(prev: Option<string>, c: string): (r: Option<string>)
    ensures r.None? <==> prev == Some(c)
    ensures r.Some? ==> r.value == c
  {
    if prev == Some(c) then None else Some(c)
  }

  /** Clicking the same category twice returns to the starting selection exactly
      when that selection was none or that category. */
  lemma ClickTwice(prev: Option<string>, c: string)
    ensures NextCategory(NextCategory(prev, c), c) == prev <==> prev == None || prev == Some(c)
  {
  }

  /** Tip `k` is the only tip of category `k`, for each of the seven buttons. */
  lemma CategoriesMatchTips()
    ensures |TipsData| == |Categories|
    ensures forall i, k :: 0 <= i < |TipsData| && 0 <= k < |Categories| ==>
      (TipsData[i].category == Categories[k] <==> i == k)
  {
  }

  /** A category carried by exactly one tip selects exactly that tip, when there is no search. */
  lemma {:induction false} SingleCategorySelectsOne(tips: seq<Tip>, c: string, k: nat)
    requires k < |tips| && c != ""
    requires forall i :: 0 <= i < |tips| ==> (tips[i].category == c <==> i == k)
    ensures FilterTips(tips, Some(c), "") == [tips[k]]
  {
    var p := ShownBy(Some(c), "");
    FilterNonePass(tips[..k], p);
    FilterNonePass(tips[k + 1..], p);
    FilterAllPass([tips[k]], p);
    FilterAppend(tips[..k], [tips[k]], p);
    FilterAppend(tips[..k] + [tips[k]], tips[k + 1..], p);
    assert tips[..k] + [tips[k]] + tips[k + 1..] == tips;
  }

  /** Each button's category selects exactly its one tip, when there is no search. */
  lemma EveryCategorySelectsOneTip(k: nat)
    requires k < |Categories|
    ensures FilterTips(TipsData, Some(Categories[k]), "") == [TipsData[k]]
  {
    CategoriesMatchTips();
    SingleCategorySelectsOne(TipsData, Categories[k], k);
  }

  /** The screen's state: the active category, the search term and the favorites set.
      The set is loaded from the same stored 'favorites' array as the species
      screens, and is never written back. */
  class TipsScreen {
    var activeCategory: Option<string>
    var searchTerm: string
    var favorites: seq<string>

    ghost predicate Valid()
      reads this
    {
      Distinct(favorites)
    }

    constructor (saved: Option<seq<string>>)
      ensures Valid()
      ensures activeCategory == None && searchTerm == "" && favorites == FavoritesStore.Load(saved)
    {
      activeCategory := None;
      searchTerm := "";
      favorites := FavoritesStore.Load(saved);
    }

    /** The tips the screen lists. */
    function FilteredTips(): seq<Tip>
      reads this
    {
      FilterTips(TipsData, activeCategory, searchTerm)
    }

    method SetSearchTerm(term: string)
      modifies this`searchTerm
      ensures searchTerm == term
    {
      searchTerm := term;
    }

    /** `clearSearch`: the term becomes '', the category stays. */
    method ClearSearch()
      modifies this`searchTerm
      ensures searchTerm == "" && activeCategory == old(activeCategory)
      ensures activeCategory == None ==> FilteredTips() == TipsData
    {
      searchTerm := "";
      NoFilterShowsAll(TipsData);
    }

    method CategoryClick(c: string)
      modifies this`activeCategory
      ensures activeCategory == NextCategory(old(activeCategory), c)
    {
      activeCategory := NextCategory(activeCategory, c);
    }

    method ToggleFavorite(id: string)
      requires Valid()
      modifies this`favorites
      ensures Valid()
      ensures favorites == FavoritesStore.Toggle(old(favorites), id)
    {
      favorites := FavoritesStore.Toggle(favorites, id);
    }
  }
}
