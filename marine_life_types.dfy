/** The species reference record shared by the tour route, the admin tour
    form and the marine-life grid (lib/types/marine-life.ts). */
module MarineLifeTypes {
  import opened JsValues

  datatype MarineLifeItem = MarineLifeItem(
    id: string,
    name: string,
    scientificName: string,
    description: string,
    longDescription: Option<string>,
    imageUrl: string,
    animalType: string,
    seasons: seq<string>,
    expeditions: seq<string>,
    slug: string,
    locations: Option<seq<string>>)

  /** `marineLifeData.map((item) => item.id)` */
  function Ids(items: seq<MarineLifeItem>): (r: seq<string>)
    ensures |r| == |items|
    ensures forall i :: 0 <= i < |items| ==> r[i] == items[i].id
  {
    if items == [] then [] else [items[0].id] + Ids(items[1..])
  }
}
