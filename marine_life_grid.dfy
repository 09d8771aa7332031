/** The species grid (app/components/marine-life/marine-life-grid.tsx): an
    empty-state message for an empty list, otherwise one linked card per
    species with at most two season badges and a short expedition summary.
    The view is the data each card shows; layout and styling are left out. */
module MarineLifeGrid {
  import opened JsValues
  import opened MarineLifeTypes

  datatype Card = Card(
    key: string,
    href: string,
    imageUrl: string,
    name: string,
    scientificName: string,
    description: string,
    animalType: string,
    seasonBadges: seq<string>,
    expeditionSummary: string)

  datatype GridView = EmptyState | Cards(cards: seq<Card>)

  const LinkPrefix := "/marine-life/"

  /** `xs.slice(0, 2)` */
  function FirstTwo(xs: seq<string>): (r: seq<string>)
    ensures |r| == if |xs| < 2 then |xs| else 2
    ensures r == xs[..|r|]
  {
    if |xs| <= 2 then xs else xs[..2]
  }

  /** `expeditions.slice(0, 2).join(", ")` followed by `"..."` when there are
      more than two. */
  function ExpeditionSummary(expeditions: seq<string>): string {
    Join(FirstTwo(expeditions), ", ") + (if |expeditions| > 2 then "..." else "")
  }

  /** The summary, case by case: nothing, the one expedition, the two joined
      by ", ", or the first two followed by "...". */
  lemma ExpeditionSummaryCases(expeditions: seq<string>)
    ensures |expeditions| == 0 ==> ExpeditionSummary(expeditions) == ""
    ensures |expeditions| == 1 ==> ExpeditionSummary(expeditions) == expeditions[0]
    ensures |expeditions| == 2 ==> ExpeditionSummary(expeditions) == expeditions[0] + ", " + expeditions[1]
    ensures |expeditions| > 2 ==>
      ExpeditionSummary(expeditions) == expeditions[0] + ", " + expeditions[1] + "..."
  {
    if |expeditions| >= 2 {
      JoinTwo(expeditions[0], expeditions[1], ", ");
      assert FirstTwo(expeditions) == [expeditions[0], expeditions[1]];
    }
  }

  /** Only the first two expeditions and whether there are more show. */
  lemma ExpeditionSummaryDependsOnFirstTwo(a: seq<string>, b: seq<string>)
    requires FirstTwo(a) == FirstTwo(b)
    requires |a| > 2 <==> |b| > 2
    ensures ExpeditionSummary(a) == ExpeditionSummary(b)
  {
  }

  function CardFor(item: MarineLifeItem): Card {
    Card(item.id, LinkPrefix + item.slug, item.imageUrl, item.name, item.scientificName,
      item.description, item.animalType, FirstTwo(item.seasons), ExpeditionSummary(item.expeditions))
  }

  /** The card links to the species page; the slug can be read back from the
      link, and the badges are the first (at most two) seasons. */
  lemma CardForCorrect(item: MarineLifeItem)
    ensures CardFor(item).href[..|LinkPrefix|] == LinkPrefix
    ensures CardFor(item).href[|LinkPrefix|..] == item.slug
    ensures |CardFor(item).seasonBadges| == if |item.seasons| < 2 then |item.seasons| else 2
    ensures CardFor(item).seasonBadges == item.seasons[..|CardFor(item).seasonBadges|]
  {
  }

  function CardsFor(items: seq<MarineLifeItem>): seq<Card>
  {
    if items == [] then [] else [CardFor(items[0])] + CardsFor(items[1..])
  }

  /** `MarineLifeGrid({ marineLifeData })` */
  function Grid(items: seq<MarineLifeItem>): GridView {
    if |items| == 0 then EmptyState else Cards(CardsFor(items))
  }

  /** The empty state shows exactly when there is no species; otherwise there
      is one card per species, in list order. */
  lemma {:induction false} GridCorrect(items: seq<MarineLifeItem>)
    ensures Grid(items).EmptyState? <==> items == []
    ensures Grid(items).Cards? ==> |Grid(items).cards| == |items|
    ensures Grid(items).Cards? ==> forall i :: 0 <= i < |items| ==> Grid(items).cards[i] == CardFor(items[i])
  {
    CardsForCorrect(items);
  }

  lemma {:induction false} CardsForCorrect(items: seq<MarineLifeItem>)
    ensures |CardsFor(items)| == |items|
    ensures forall i :: 0 <= i < |items| ==> CardsFor(items)[i] == CardFor(items[i])
  {
    if items != [] {
      CardsForCorrect(items[1..]);
      assert forall i :: 1 <= i < |items| ==> items[i] == items[1..][i - 1];
    }
  }
}
