/** The species detail screen (src/components/SpeciesDetail.tsx): the icon lookup
    for timeline steps, the not-found view for an unknown id, and the two local
    toggles. */
module SpeciesDetail {
  import opened Wrappers
  import opened SpeciesData

  /** The icon components the lookup table can return. */
  datatype Icon = Clock | Sun | Droplets | Puzzle | Star | CheckSquare | Video | Library | ArrowLeft

  /** The component's own name, which is also its key in the table. */
  function IconName(i: Icon): string {
    match i
    case Clock => "Clock"
    case Sun => "Sun"
    case Droplets => "Droplets"
    case Puzzle => "Puzzle"
    case Star => "Star"
    case CheckSquare => "CheckSquare"
    case Video => "Video"
    case Library => "Library"
    case ArrowLeft => "ArrowLeft"
  }

  /** The `icons` table: the nine icons under their own names, and three
      timeline icon names that stand in for Droplets. */
  const IconTable: map<string, Icon> := map[
    "Clock" := Clock, "Sun" := Sun, "Droplets" := Droplets, "Puzzle" := Puzzle,
    "Star" := Star, "CheckSquare" := CheckSquare, "Video" := Video,
    "Library" := Library, "ArrowLeft" := ArrowLeft,
    "Moon" := Droplets, "Sprout" := Droplets, "Scissors" := Droplets
  ]

  /** `getIcon(name)`: `icons[name] || Library`. */
  function GetIcon(name: string): Icon {
    if name in IconTable then IconTable[name] else Library
  }

  /** Each of the nine icons is found under its own name. */
  lemma GetIconByOwnName(i: Icon)
    ensures GetIcon(IconName(i)) == i
  {
  }

  /** 'Moon', 'Sprout' and 'Scissors' are shown as Droplets. */
  lemma GetIconAliases(name: string)
    requires name in {"Moon", "Sprout", "Scissors"}
    ensures GetIcon(name) == Droplets
  {
  }

  /** Any name outside the table gives Library; inside the table only 'Library' does. */
  lemma GetIconDefault(name: string)
    ensures GetIcon(name) == Library <==> name == "Library" || name !in IconTable
  {
  }

  /** The icons of a species' timeline, step by step. */
  function StepIcons(sp: Species): (r: seq<Icon>)
    ensures |r| == |sp.timeline|
    ensures forall i :: 0 <= i < |r| ==> r[i] == GetIcon(sp.timeline[i].icon)
  {
    seq(|sp.timeline|, i requires 0 <= i < |sp.timeline| => GetIcon(sp.timeline[i].icon))
  }

  /** The 'rabanete-roxo' timeline shows Droplets for every step but the day-4 Sun. */
  lemma RabaneteStepIcons()
    ensures StepIcons(SpeciesList[0]) == [Droplets, Droplets, Droplets, Sun, Droplets]
  {
  }

  /** What the screen renders for an id. */
  datatype View = NotFound | Detail(species: Species)

  /** The not-found view when `getSpeciesById` finds nothing, the detail view of the found species otherwise. */
  function ViewFor(id: string): (v: View)
    ensures v.NotFound? <==> forall i :: 0 <= i < |SpeciesList| ==> SpeciesList[i].id != id
    ensures v.Detail? ==> v.species.id == id && v.species in SpeciesList
  {
    match GetSpeciesById(id)
    case None => NotFound
    case Some(sp) => Detail(sp)
  }

  /** The screen's state: the species id it was opened with and two local flags. */
  class DetailScreen {
    const speciesId: string
    var isFavorite: bool
    var isCultivated: bool

    constructor (speciesId: string)
      ensures this.speciesId == speciesId
      ensures !isFavorite && !isCultivated
    {
      this.speciesId := speciesId;
      isFavorite := false;
      isCultivated := false;
    }

    function View(): View {
      ViewFor(speciesId)
    }

    /** `toggleFavorite`: flips the favorite flag only. */
    method ToggleFavorite()
      modifies this
      ensures isFavorite == !old(isFavorite) && isCultivated == old(isCultivated)
    {
      isFavorite := !isFavorite;
    }

    /** `toggleCultivated`: flips the cultivated flag only. */
    method ToggleCultivated()
      modifies this
      ensures isCultivated == !old(isCultivated) && isFavorite == old(isFavorite)
    {
      isCultivated := !isCultivated;
    }
  }
}
