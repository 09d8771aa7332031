/** The admin tour list (app/dashboard/admin/tours/page.tsx): each tour the
    query returns is copied with its equipment associations flattened into a
    `requiredEquipment` list of names. The query itself is not modelled; its
    rows are the input. */
module AdminTours {
  import opened JsValues

  datatype Equipment = Equipment(id: string, name: string)

  /** One row of the tour-equipment association, as selected. */
  datatype EquipmentLink = EquipmentLink(equipment: Equipment)

  /** A tour row: the scalar and nested columns the query selects, by name,
      and the equipment relation, `None` when it is missing. */
  datatype TourRow = TourRow(columns: map<string, Json>, equipment: Option<seq<EquipmentLink>>)

  /** `{ ...tour, requiredEquipment }` */
  datatype AdminTour = AdminTour(
    columns: map<string, Json>,
    equipment: Option<seq<EquipmentLink>>,
    requiredEquipment: seq<string>)

  /** `links.map((e) => e.equipment.name)` */
  function Names(links: seq<EquipmentLink>): seq<string>
  {
    if links == [] then [] else [links[0].equipment.name] + Names(links[1..])
  }

  /** The names come one per association, in association order. */
  lemma {:induction false} NamesCorrect(links: seq<EquipmentLink>)
    ensures |Names(links)| == |links|
    ensures forall i :: 0 <= i < |links| ==> Names(links)[i] == links[i].equipment.name
  {
    if links != [] {
      NamesCorrect(links[1..]);
      assert forall i :: 1 <= i < |links| ==> links[i] == links[1..][i - 1];
    }
  }

  /** `tour.equipment?.map((e) => e.equipment.name) || []`: an empty array
      is truthy, so only a missing relation falls back to `[]`. */
  function RequiredEquipment(equipment: Option<seq<EquipmentLink>>): seq<string> {
    if equipment.Some? then Names(equipment.value) else []
  }

  function Transform(tour: TourRow): AdminTour {
    AdminTour(tour.columns, tour.equipment, RequiredEquipment(tour.equipment))
  }

  /** `tours.map(...)` */
  function TransformAll(tours: seq<TourRow>): seq<AdminTour>
  {
    if tours == [] then [] else [Transform(tours[0])] + TransformAll(tours[1..])
  }

  /** Every column and the equipment relation are carried over;
      `requiredEquipment` holds the equipment names, one per association in
      association order, and is empty without the relation. */
  lemma TransformCorrect(tour: TourRow)
    ensures Transform(tour).columns == tour.columns
    ensures Transform(tour).equipment == tour.equipment
    ensures tour.equipment.None? ==> Transform(tour).requiredEquipment == []
    ensures tour.equipment.Some? ==>
      && |Transform(tour).requiredEquipment| == |tour.equipment.value|
      && forall j :: 0 <= j < |tour.equipment.value| ==>
        Transform(tour).requiredEquipment[j] == tour.equipment.value[j].equipment.name
  {
    if tour.equipment.Some? {
      NamesCorrect(tour.equipment.value);
    }
  }

  /** One output tour per input tour, in the same order. */
  lemma {:induction false} TransformAllCorrect(tours: seq<TourRow>)
    ensures |TransformAll(tours)| == |tours|
    ensures forall i :: 0 <= i < |tours| ==> TransformAll(tours)[i] == Transform(tours[i])
  {
    if tours != [] {
      TransformAllCorrect(tours[1..]);
      assert forall i :: 1 <= i < |tours| ==> tours[i] == tours[1..][i - 1];
    }
  }
}
