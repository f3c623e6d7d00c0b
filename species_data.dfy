/** The species catalog (src/data/speciesData.ts): a constant ordered list of
    species and the lookup `getSpeciesById`. */
module SpeciesData {
  import opened Wrappers

  /** A timeline step's day marker: a number or a label (`number | string`). */
  datatype Day = DayNumber(n: int) | DayLabel(caption: string)

  /** One dated instruction of a species' cultivation timeline. The step's
      illustration URL is not modelled. */
  datatype TimelineStep = TimelineStep(
    day: Day,
    title: string,
    icon: string,
    description: string,
    details: Option<string>)

  /** The three difficulty levels 'Fácil', 'Médio' and 'Difícil'. */
  datatype Difficulty = Facil | Medio | Dificil

  /** A species record. The last three fields are read by the favorites screen
      but declared by neither the interface nor any catalog entry; they are
      kept as options whose `None` is the `undefined` the screen really reads.
      The main image URL is not modelled. */
  datatype Species = Species(
    id: string,
    name: string,
    cultivationTime: string,
    light: string,
    watering: string,
    difficulty: Difficulty,
    timeline: seq<TimelineStep>,
    benefits: Option<seq<string>>,
    cultivationTimeValue: Option<int>,
    color: Option<string>)

  const RabaneteTimeline: seq<TimelineStep> := [
    TimelineStep(DayNumber(1), "Hidratação", "Droplets",
      "Deixe as sementes de molho por 6-8 horas.",
      Some("Use água filtrada. Recipiente de vidro com voal/gaze.")),
    TimelineStep(DayNumber(2), "Drenagem + Escuro", "Moon",
      "Escorra bem. Mantenha coberto e úmido por 24h.",
      Some("Use um pano escuro e úmido.")),
    TimelineStep(DayNumber(3), "Germinação", "Sprout",
      "Brotos surgem. Mantenha úmido, sem luz direta.", None),
    TimelineStep(DayNumber(4), "Luz Suave", "Sun",
      "Leve para luz indireta. Borrife água 2x ao dia.", None),
    TimelineStep(DayNumber(5), "Colheita", "Scissors",
      "Com 5-7cm, corte rente à base.", Some("Consuma fresco!"))
  ]

  /** `speciesList`, in source order. */
  const SpeciesList: seq<Species> := [
    Species("rabanete-roxo", "Rabanete Roxo", "5 dias", "Indireta", "2x por dia",
      Facil, RabaneteTimeline, None, None, None),
    Species("brocolis", "Brócolis", "7 dias", "Indireta", "1-2x por dia",
      Facil, [], None, None, None),
    Species("mostarda", "Mostarda", "6 dias", "Plena/Indireta", "2x por dia",
      Facil, [], None, None, None),
    Species("girassol", "Girassol", "8 dias", "Plena", "1x por dia",
      Medio, [], None, None, None),
    Species("rucula", "Rúcula", "7 dias", "Indireta", "2x por dia",
      Facil, [], None, None, None)
  ]

  /** `list.find(species => species.id === id)`: the first entry with that id, if any. */
  function FindById(list: seq<Species>, id: string): (r: Option<Species>)
    ensures r.Some? ==> r.value.id == id && r.value in list
    ensures r.None? <==> forall i :: 0 <= i < |list| ==> list[i].id != id
  {
    if list == [] then None
    else if list[0].id == id then Some(list[0])
    else FindById(list[1..], id)
  }

  /** `getSpeciesById(id)`: the lookup over the catalog. */
  function GetSpeciesById(id: string): (r: Option<Species>)
    ensures r.Some? ==> r.value in SpeciesList && r.value.id == id
    ensures r.None? <==> forall i :: 0 <= i < |SpeciesList| ==> SpeciesList[i].id != id
  {
    FindById(SpeciesList, id)
  }

  /** When several entries share an id, the lookup returns the first in list order. */
  lemma {:induction false} FindByIdFirst(list: seq<Species>, id: string, k: nat)
    requires k < |list| && list[k].id == id
    requires forall j :: 0 <= j < k ==> list[j].id != id
    ensures FindById(list, id) == Some(list[k])
  {
    if k > 0 {
      FindByIdFirst(list[1..], id, k - 1);
    }
  }

  /** Catalog ids are pairwise distinct. */
  lemma CatalogIdsDistinct()
    ensures forall i, j :: 0 <= i < j < |SpeciesList| ==> SpeciesList[i].id != SpeciesList[j].id
  {
  }

  /** Because ids are distinct, looking up any catalog entry's id finds exactly that entry. */
  lemma CatalogLookupUnambiguous(k: nat)
    requires k < |SpeciesList|
    ensures GetSpeciesById(SpeciesList[k].id) == Some(SpeciesList[k])
  {
    CatalogIdsDistinct();
    FindByIdFirst(SpeciesList, SpeciesList[k].id, k);
  }

  /** An id that no entry carries finds nothing (the detail screen's not-found case). */
  lemma UnknownIdNotFound(id: string)
    requires id !in {"rabanete-roxo", "brocolis", "mostarda", "girassol", "rucula"}
    ensures GetSpeciesById(id) == None
  {
  }

  /** The 'rabanete-roxo' timeline is numbered day 1 to day 5, strictly increasing. */
  lemma RabaneteDaysIncreasing()
    ensures GetSpeciesById("rabanete-roxo") == Some(SpeciesList[0])
    ensures |SpeciesList[0].timeline| == 5
    ensures forall i :: 0 <= i < 5 ==> SpeciesList[0].timeline[i].day == DayNumber(i + 1)
  {
  }
}
