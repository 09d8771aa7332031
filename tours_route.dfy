/** The `/api/tours` route handler (app/api/tours/route.ts).

    POST checks the requested marine-life ids against the species reference
    data, derives the display names of the chosen species and builds the
    record handed to the store, filling `||` defaults for optional fields.
    GET lists the tours that are published and not deleted, newest first.
    The store itself is not modelled: the reference data and the stored tours
    are passed in as sequences, and the record POST would create is returned. */
module ToursRoute {
  import opened Sequences
  import opened JsValues
  import opened MarineLifeTypes

  // ---------------------------------------------------------------------
  // POST /api/tours
  // ---------------------------------------------------------------------

  /** The record POST passes to the store. Fields the handler copies from the
      request body are `JsValue`s (`None` when the body omits them); the
      fields with a `||` fallback always have a value. */
  datatype TourRecord = TourRecord(
    name: JsValue,
    description: JsValue,
    difficulty: JsValue,
    duration: JsValue,
    marineLife: seq<string>,
    marineLifeIds: seq<Json>,
    startLocation: JsValue,
    endLocation: JsValue,
    marineArea: JsValue,
    seasons: JsValue,
    expeditionType: JsValue,
    basePrice: JsValue,
    maxParticipants: JsValue,
    requiredEquipment: Json,
    safetyBriefing: JsValue,
    published: Json,
    images: Json,
    categoryId: Json,
    guideId: JsValue,
    highlights: Json,
    inclusions: Json,
    exclusions: Json)

  /** How POST ends: the record is created (201), some requested ids are
      unknown (400), or something threw (500). */
  datatype CreateOutcome =
    | Created(tour: TourRecord)
    | UnknownMarineLifeIds(ids: seq<Json>)
    | Failed

  function Status(o: CreateOutcome): int {
    match o
    case Created(_) => 201
    case UnknownMarineLifeIds(_) => 400
    case Failed => 500
  }

  const FailureMessage := "Failed to create marine experience"
  const DefaultCategory := "MARINE_EXPERIENCE"
  const DefaultHighlights := JArr([JStr("Marine life observation"), JStr("Educational commentary")])
  const DefaultInclusions := JArr([JStr("Safety equipment"), JStr("Expert guide")])
  const DefaultExclusions := JArr([JStr("Transportation to departure point")])

  const UnknownIdsPrefix := "Invalid marine life IDs: "

  /** The error text of a 400 response, from the texts of the unknown ids. */
  function UnknownIdsMessage(texts: seq<string>): string {
    UnknownIdsPrefix + Join(texts, ", ")
  }

  /** The message starts with the fixed prefix and ends with the last id; one
      or two ids read as the prefix followed by them. */
  lemma UnknownIdsMessageParts(ids: seq<string>)
    ensures UnknownIdsMessage(ids)[..|UnknownIdsPrefix|] == UnknownIdsPrefix
    ensures ids == [] ==> UnknownIdsMessage(ids) == UnknownIdsPrefix
    ensures ids != [] ==>
      |UnknownIdsMessage(ids)| == |UnknownIdsPrefix| + JoinOffset(ids, ", ", |ids| - 1) + |ids[|ids| - 1]|
    ensures |ids| == 1 ==> UnknownIdsMessage(ids) == UnknownIdsPrefix + ids[0]
    ensures |ids| == 2 ==> UnknownIdsMessage(ids) == UnknownIdsPrefix + ids[0] + ", " + ids[1]
  {
    if ids != [] {
      JoinLength(ids, ", ");
    }
    if |ids| == 2 {
      JoinTwo(ids[0], ids[1], ", ");
      assert ids == [ids[0], ids[1]];
    }
  }

  /** After the prefix, id `i` is written out in full at its place in the
      list: character `k` of it is at the prefix length plus the id's join
      offset plus `k`. */
  lemma UnknownIdInMessage(ids: seq<string>, i: nat, k: nat)
    requires i < |ids| && k < |ids[i]|
    ensures |UnknownIdsPrefix| + JoinOffset(ids, ", ", i) + k < |UnknownIdsMessage(ids)|
    ensures UnknownIdsMessage(ids)[|UnknownIdsPrefix| + JoinOffset(ids, ", ", i) + k] == ids[i][k]
  {
    JoinElementAt(ids, ", ", i, k);
  }

  /** Each id but the last is followed by ", ". With the two lemmas above
      this fixes every character of the message. */
  lemma SeparatorInMessage(ids: seq<string>, i: nat, k: nat)
    requires i < |ids| - 1 && k < 2
    ensures |UnknownIdsPrefix| + JoinOffset(ids, ", ", i) + |ids[i]| + k < |UnknownIdsMessage(ids)|
    ensures UnknownIdsMessage(ids)[|UnknownIdsPrefix| + JoinOffset(ids, ", ", i) + |ids[i]| + k] == ", "[k]
  {
    JoinSeparatorAt(ids, ", ", i, k);
  }

  /** Converting the value to a string throws a TypeError. A parsed object
      with its own "toString" key has a `toString` that is not a function,
      and `valueOf` returns the object itself, so no primitive is found; an
      array converts its elements in turn. */
  predicate ToStringThrows(j: Json) {
    match j
    case JObj(fields) => "toString" in fields
    case JArr(items) => exists i :: 0 <= i < |items| && ToStringThrows(items[i])
    case _ => false
  }

  /** Some element of the list throws when `join` converts it. */
  predicate AnyToStringThrows(items: seq<Json>) {
    exists i :: 0 <= i < |items| && ToStringThrows(items[i])
  }

  /** How `join` writes one array element: `null` as nothing, a boolean as
      "true" or "false", a string as itself and an object as
      "[object Object]". An object whose conversion throws has no text;
      numbers and nested arrays are not rendered by this model (`None`). */
  function ElementText(j: Json): (r: Option<string>)
    ensures r.Some? ==> !ToStringThrows(j)
  {
    match j
    case JNull => Some("")
    case JBool(b) => Some(if b then "true" else "false")
    case JStr(s) => Some(s)
    case JObj(fields) => if "toString" in fields then None else Some("[object Object]")
    case _ => None
  }

  /** The texts of all elements, when each one is rendered. */
  function ElementTexts(items: seq<Json>): (r: Option<seq<string>>)
    ensures r.Some? <==> forall i :: 0 <= i < |items| ==> ElementText(items[i]).Some?
    ensures r.Some? ==> |r.value| == |items|
    ensures r.Some? ==> forall i :: 0 <= i < |items| ==> ElementText(items[i]) == Some(r.value[i])
  {
    if items == [] then Some([])
    else
      var head := ElementText(items[0]);
      var tail := ElementTexts(items[1..]);
      assert forall i :: 1 <= i < |items| ==> items[i] == items[1..][i - 1];
      if head.Some? && tail.Some? then Some([head.value] + tail.value) else None
  }

  /** `validIds.includes(id)`: the reference ids are strings, so only a
      string id can be found among them. */
  predicate IsKnownId(id: Json, validIds: seq<string>) {
    id.JStr? && id.s in validIds
  }

  /** `data.marineLifeIds.filter((id) => !validIds.includes(id))` */
  function UnknownIds(requested: seq<Json>, validIds: seq<string>): seq<Json>
  {
    if requested == [] then []
    else (if IsKnownId(requested[0], validIds) then [] else [requested[0]])
         + UnknownIds(requested[1..], validIds)
  }

  /** The reported ids are exactly the requested ids that are not reference ids. */
  lemma {:induction false} UnknownIdsExact(requested: seq<Json>, validIds: seq<string>)
    ensures forall id :: id in UnknownIds(requested, validIds) <==>
      id in requested && !IsKnownId(id, validIds)
  {
    if requested != [] {
      UnknownIdsExact(requested[1..], validIds);
      assert requested == [requested[0]] + requested[1..];
    }
  }

  /** The reported ids keep request order: filtering a concatenation is the
      concatenation of the filtered parts. */
  lemma {:induction false} UnknownIdsAppend(a: seq<Json>, b: seq<Json>, validIds: seq<string>)
    ensures UnknownIds(a + b, validIds) == UnknownIds(a, validIds) + UnknownIds(b, validIds)
  {
    if a == [] {
      assert a + b == b;
    } else {
      UnknownIdsAppend(a[1..], b, validIds);
      ConsAppend(a, b);
      UnknownIdsCons(a[0], a[1..] + b, validIds);
    }
  }

  lemma UnknownIdsCons(x: Json, s: seq<Json>, validIds: seq<string>)
    ensures UnknownIds([x] + s, validIds) == (if IsKnownId(x, validIds) then [] else [x]) + UnknownIds(s, validIds)
  {
    assert ([x] + s)[1..] == s;
  }

  /** No id is reported exactly when every requested id is a reference id. */
  lemma UnknownIdsEmpty(requested: seq<Json>, validIds: seq<string>)
    ensures UnknownIds(requested, validIds) == [] <==>
      forall i :: 0 <= i < |requested| ==> IsKnownId(requested[i], validIds)
  {
    UnknownIdsExact(requested, validIds);
    if UnknownIds(requested, validIds) != [] {
      var id := UnknownIds(requested, validIds)[0];
      assert id in UnknownIds(requested, validIds);
      var i :| 0 <= i < |requested| && requested[i] == id;
    }
  }

  /** `marineLifeData.filter((item) => data.marineLifeIds.includes(item.id)).map((item) => item.name)` */
  function SelectedNames(reference: seq<MarineLifeItem>, requested: seq<Json>): seq<string>
  {
    if reference == [] then []
    else (if JStr(reference[0].id) in requested then [reference[0].name] else [])
         + SelectedNames(reference[1..], requested)
  }

  /** A name is stored exactly when some reference item with that name was requested. */
  lemma {:induction false} SelectedNamesExact(reference: seq<MarineLifeItem>, requested: seq<Json>)
    ensures forall n :: n in SelectedNames(reference, requested) <==>
      exists i :: 0 <= i < |reference| && reference[i].name == n && JStr(reference[i].id) in requested
  {
    if reference != [] {
      SelectedNamesExact(reference[1..], requested);
      forall n | n in SelectedNames(reference, requested)
        ensures exists i :: 0 <= i < |reference| && reference[i].name == n && JStr(reference[i].id) in requested
      {
        if !(JStr(reference[0].id) in requested && n == reference[0].name) {
          assert n in SelectedNames(reference[1..], requested);
          var j :| 0 <= j < |reference[1..]| && reference[1..][j].name == n && JStr(reference[1..][j].id) in requested;
          assert reference[j + 1] == reference[1..][j];
        }
      }
      forall n | exists i :: 0 <= i < |reference| && reference[i].name == n && JStr(reference[i].id) in requested
        ensures n in SelectedNames(reference, requested)
      {
        var i :| 0 <= i < |reference| && reference[i].name == n && JStr(reference[i].id) in requested;
        if i > 0 {
          assert reference[1..][i - 1] == reference[i];
        }
      }
    }
  }

  /** The names follow reference-data order, not request order. */
  lemma {:induction false} SelectedNamesAppend(a: seq<MarineLifeItem>, b: seq<MarineLifeItem>, requested: seq<Json>)
    ensures SelectedNames(a + b, requested) == SelectedNames(a, requested) + SelectedNames(b, requested)
  {
    if a == [] {
      assert a + b == b;
    } else {
      SelectedNamesAppend(a[1..], b, requested);
      ConsAppend(a, b);
      SelectedNamesCons(a[0], a[1..] + b, requested);
    }
  }

  lemma SelectedNamesCons(x: MarineLifeItem, s: seq<MarineLifeItem>, requested: seq<Json>)
    ensures SelectedNames([x] + s, requested) == (if JStr(x.id) in requested then [x.name] else []) + SelectedNames(s, requested)
  {
    assert ([x] + s)[1..] == s;
  }

  /** `data[key]` for an object body. */
  function Field(data: map<string, Json>, key: string): JsValue {
    if key in data then Some(data[key]) else None
  }

  /** The object literal passed to the store. `tourData` is `data` spread with
      `startLocationId` and `endLocationId` copied from `data` again, so every
      property read from `tourData` reads the same value from `data`. Reading
      `.name` of a missing or `null` location throws. */
  function BuildRecord(data: map<string, Json>, ids: seq<Json>, names: seq<string>): Result<TourRecord>
  {
    var startLocation := Get(Field(data, "startLocation"), "name");
    var endLocation := Get(Field(data, "endLocation"), "name");
    if startLocation.Throws? || endLocation.Throws? then Throws
    else Ok(TourRecord(
      name := Field(data, "name"),
      description := Field(data, "description"),
      difficulty := Field(data, "difficulty"),
      duration := Field(data, "duration"),
      marineLife := names,
      marineLifeIds := ids,
      startLocation := startLocation.value,
      endLocation := endLocation.value,
      marineArea := Field(data, "marineArea"),
      seasons := Field(data, "seasons"),
      expeditionType := Field(data, "expeditionType"),
      basePrice := Field(data, "basePrice"),
      maxParticipants := Field(data, "maxParticipants"),
      requiredEquipment := Or(Field(data, "requiredEquipment"), JArr([])),
      safetyBriefing := Field(data, "safetyBriefing"),
      published := Or(Field(data, "published"), JBool(false)),
      images := Or(Field(data, "images"), JArr([])),
      categoryId := Or(Field(data, "categoryId"), JStr(DefaultCategory)),
      guideId := Field(data, "guideId"),
      highlights := Or(Field(data, "highlights"), DefaultHighlights),
      inclusions := Or(Field(data, "inclusions"), DefaultInclusions),
      exclusions := Or(Field(data, "exclusions"), DefaultExclusions)))
  }

  /** The `error` text of a 400 or 500 response. `None` when an unknown id
      is a number or an array, whose text this model does not render. */
  function ErrorText(o: CreateOutcome): Option<string>
    requires !o.Created?
  {
    match o
    case Failed => Some(FailureMessage)
    case UnknownMarineLifeIds(ids) =>
      var texts := ElementTexts(ids);
      if texts.Some? then Some(UnknownIdsMessage(texts.value)) else None
  }

  /** POST /api/tours. `body` is `None` when `request.json()` throws;
      `reference` is what the species lookup returns. */
  function CreateTour(body: Option<Json>, reference: seq<MarineLifeItem>): (o: CreateOutcome)
    ensures o.Created? || o.UnknownMarineLifeIds? ==> body.Some? && body.value.JObj?
    ensures o.UnknownMarineLifeIds? ==> o.ids != [] && !AnyToStringThrows(o.ids)
  {
    if body.None? then Failed
    else
      var ids := Get(body, "marineLifeIds");
      if ids.Throws? || ids.value.None? || !ids.value.value.JArr? then
        // reading `.filter` of a non-array and calling it throws
        Failed
      else
        var requested := ids.value.value.items;
        var unknown := UnknownIds(requested, Ids(reference));
        if |unknown| > 0 then
          // `join` throws inside the template string, into the catch
          if AnyToStringThrows(unknown) then Failed else UnknownMarineLifeIds(unknown)
        else
          var record := BuildRecord(body.value.fields, requested, SelectedNames(reference, requested));
          if record.Throws? then Failed else Created(record.value)
  }

  /** An object body whose `marineLifeIds` is an array. */
  predicate HasIdArray(body: Option<Json>, requested: seq<Json>) {
    body.Some? && body.value.JObj? && "marineLifeIds" in body.value.fields
    && body.value.fields["marineLifeIds"] == JArr(requested)
  }

  /** If any requested id is unknown, no record is built. The answer is 400
      naming exactly the unknown ids in request order, unless one of them
      throws when `join` converts it to a string: then it is the 500 of the
      catch. */
  lemma CreateRejectsUnknownIds(body: Option<Json>, reference: seq<MarineLifeItem>, requested: seq<Json>)
    requires HasIdArray(body, requested)
    requires exists i :: 0 <= i < |requested| && !IsKnownId(requested[i], Ids(reference))
    ensures !AnyToStringThrows(UnknownIds(requested, Ids(reference))) ==>
      && CreateTour(body, reference) == UnknownMarineLifeIds(UnknownIds(requested, Ids(reference)))
      && Status(CreateTour(body, reference)) == 400
    ensures AnyToStringThrows(UnknownIds(requested, Ids(reference))) ==>
      && CreateTour(body, reference) == Failed
      && ErrorText(CreateTour(body, reference)) == Some(FailureMessage)
  {
    UnknownIdsEmpty(requested, Ids(reference));
    assert Get(body, "marineLifeIds") == Ok(Some(JArr(requested)));
    assert |UnknownIds(requested, Ids(reference))| > 0;
  }

  /** The unknown ids are among the requested ones, so they render when all
      requested ids do. */
  lemma UnknownIdsRender(requested: seq<Json>, validIds: seq<string>)
    requires forall i :: 0 <= i < |requested| ==> ElementText(requested[i]).Some?
    ensures ElementTexts(UnknownIds(requested, validIds)).Some?
  {
    var unknown := UnknownIds(requested, validIds);
    UnknownIdsExact(requested, validIds);
    forall i | 0 <= i < |unknown| ensures ElementText(unknown[i]).Some? {
      assert unknown[i] in unknown;
    }
  }

  /** The 400 answer's text is the prefix followed by the texts of exactly the
      unknown ids, in request order, joined by ", " (when every requested id
      is one this model renders). */
  lemma CreateRejectionText(body: Option<Json>, reference: seq<MarineLifeItem>, requested: seq<Json>)
    requires HasIdArray(body, requested)
    requires exists i :: 0 <= i < |requested| && !IsKnownId(requested[i], Ids(reference))
    requires forall i :: 0 <= i < |requested| ==> ElementText(requested[i]).Some?
    ensures CreateTour(body, reference).UnknownMarineLifeIds?
    ensures ElementTexts(UnknownIds(requested, Ids(reference))).Some?
    ensures ErrorText(CreateTour(body, reference))
      == Some(UnknownIdsMessage(ElementTexts(UnknownIds(requested, Ids(reference))).value))
  {
    CreateRejectsUnknownIds(body, reference, requested);
    UnknownIdsRender(requested, Ids(reference));
    NoTextThrows(UnknownIds(requested, Ids(reference)));
  }

  /** Ids that all render do not throw. */
  lemma NoTextThrows(items: seq<Json>)
    requires ElementTexts(items).Some?
    ensures !AnyToStringThrows(items)
  {
    forall i | 0 <= i < |items| ensures !ToStringThrows(items[i]) {
      assert ElementText(items[i]).Some?;
    }
  }

  /** `{"marineLifeIds": [{"toString": 1}]}`: the object is not a known id,
      and `join` cannot convert it, so the answer is 500 rather than 400. */
  lemma CreateFailsOnUnconvertibleId(reference: seq<MarineLifeItem>)
    ensures var id := JObj(map["toString" := JNum(1.0)]);
      var body := Some(JObj(map["marineLifeIds" := JArr([id])]));
      && CreateTour(body, reference) == Failed
      && ErrorText(CreateTour(body, reference)) == Some(FailureMessage)
  {
    var id := JObj(map["toString" := JNum(1.0)]);
    var body := Some(JObj(map["marineLifeIds" := JArr([id])]));
    assert !IsKnownId([id][0], Ids(reference));
    CreateRejectsUnknownIds(body, reference, [id]);
    assert UnknownIds([id], Ids(reference)) == [id] by {
      UnknownIdsExact([id], Ids(reference));
      UnknownIdsEmpty([id], Ids(reference));
    }
    assert ToStringThrows(UnknownIds([id], Ids(reference))[0]);
  }

  /** The ids themselves, when all are strings. */
  function StringIds(ids: seq<Json>): (r: seq<string>)
    requires forall i :: 0 <= i < |ids| ==> ids[i].JStr?
    ensures |r| == |ids|
    ensures forall i :: 0 <= i < |ids| ==> ids[i] == JStr(r[i])
  {
    seq(|ids|, i requires 0 <= i < |ids| => ids[i].s)
  }

  /** With string ids, the 400 text is the prefix followed by the unknown ids
      themselves, in request order, joined by ", ". */
  lemma CreateNamesUnknownIds(body: Option<Json>, reference: seq<MarineLifeItem>, requested: seq<Json>)
    requires HasIdArray(body, requested)
    requires exists i :: 0 <= i < |requested| && !IsKnownId(requested[i], Ids(reference))
    requires forall i :: 0 <= i < |requested| ==> requested[i].JStr?
    ensures CreateTour(body, reference).UnknownMarineLifeIds?
    ensures forall i :: 0 <= i < |UnknownIds(requested, Ids(reference))| ==> UnknownIds(requested, Ids(reference))[i].JStr?
    ensures ErrorText(CreateTour(body, reference))
      == Some(UnknownIdsMessage(StringIds(UnknownIds(requested, Ids(reference)))))
  {
    CreateRejectionText(body, reference, requested);
    var unknown := UnknownIds(requested, Ids(reference));
    UnknownIdsExact(requested, Ids(reference));
    forall i | 0 <= i < |unknown| ensures unknown[i].JStr? {
      assert unknown[i] in unknown;
    }
    assert ElementTexts(unknown).value == StringIds(unknown);
  }

  /** When every id is known and both locations are objects, the tour is
      created (201) with the names of the requested species. */
  lemma CreateAcceptsKnownIds(body: Option<Json>, reference: seq<MarineLifeItem>, requested: seq<Json>)
    requires HasIdArray(body, requested)
    requires forall i :: 0 <= i < |requested| ==> IsKnownId(requested[i], Ids(reference))
    requires "startLocation" in body.value.fields && body.value.fields["startLocation"] != JNull
    requires "endLocation" in body.value.fields && body.value.fields["endLocation"] != JNull
    ensures CreateTour(body, reference).Created?
    ensures Status(CreateTour(body, reference)) == 201
    ensures CreateTour(body, reference).tour.marineLife == SelectedNames(reference, requested)
    ensures CreateTour(body, reference).tour.marineLifeIds == requested
  {
    UnknownIdsEmpty(requested, Ids(reference));
  }

  /** A body that cannot be parsed, is `null`, or has no `marineLifeIds`
      array fails with 500. */
  lemma CreateFailsWithoutIdArray(body: Option<Json>, reference: seq<MarineLifeItem>)
    requires body.None? || body == Some(JNull) || !body.value.JObj?
      || "marineLifeIds" !in body.value.fields || !body.value.fields["marineLifeIds"].JArr?
    ensures CreateTour(body, reference) == Failed
    ensures Status(CreateTour(body, reference)) == 500
    ensures ErrorText(CreateTour(body, reference)) == Some(FailureMessage)
  {
  }

  /** With all ids known, a body whose start or end location is missing or
      `null` still fails with 500: the id check comes first, the location
      read throws afterwards. */
  lemma CreateFailsWithoutLocation(body: Option<Json>, reference: seq<MarineLifeItem>, requested: seq<Json>, key: string)
    requires HasIdArray(body, requested)
    requires forall i :: 0 <= i < |requested| ==> IsKnownId(requested[i], Ids(reference))
    requires key == "startLocation" || key == "endLocation"
    requires key !in body.value.fields || body.value.fields[key] == JNull
    ensures CreateTour(body, reference) == Failed
    ensures ErrorText(CreateTour(body, reference)) == Some(FailureMessage)
  {
    UnknownIdsEmpty(requested, Ids(reference));
  }

  /** The `||` fallbacks of a created record: an omitted (or otherwise falsy)
      list becomes its default, while any supplied array, even an empty one,
      is kept; `published` defaults to false; a missing or empty `categoryId`
      becomes "MARINE_EXPERIENCE". */
  lemma CreatedDefaults(body: Option<Json>, reference: seq<MarineLifeItem>)
    requires CreateTour(body, reference).Created?
    ensures var t := CreateTour(body, reference).tour; var data := body.value.fields;
      && ("requiredEquipment" !in data ==> t.requiredEquipment == JArr([]))
      && ("images" !in data ==> t.images == JArr([]))
      && ("highlights" !in data ==> t.highlights == DefaultHighlights)
      && ("inclusions" !in data ==> t.inclusions == DefaultInclusions)
      && ("exclusions" !in data ==> t.exclusions == DefaultExclusions)
      && (forall key, xs :: key in {"requiredEquipment", "images", "highlights", "inclusions", "exclusions"}
            && key in data && data[key] == JArr(xs)
            ==> ListField(t, key) == JArr(xs))
      && ("published" !in data ==> t.published == JBool(false))
      && (("categoryId" !in data || data["categoryId"] == JStr("")) ==> t.categoryId == JStr(DefaultCategory))
      && ("categoryId" in data && data["categoryId"].JStr? && data["categoryId"] != JStr("") ==> t.categoryId == data["categoryId"])
  {
  }

  /** The list-valued fields of a record, by the name of the body property. */
  function ListField(t: TourRecord, key: string): Json {
    match key
    case "requiredEquipment" => t.requiredEquipment
    case "images" => t.images
    case "highlights" => t.highlights
    case "inclusions" => t.inclusions
    case _ => t.exclusions
  }

  // ---------------------------------------------------------------------
  // GET /api/tours
  // ---------------------------------------------------------------------

  /** The columns of a stored tour that the listing query filters and sorts on. */
  datatype TourRow = TourRow(id: string, name: string, published: bool, deleted: bool, createdAt: int)

  /** `where: { published: true, deleted: false }` */
  predicate Visible(t: TourRow) {
    t.published && !t.deleted
  }

  function VisibleRows(rows: seq<TourRow>): seq<TourRow> {
    if rows == [] then []
    else (if Visible(rows[0]) then [rows[0]] else []) + VisibleRows(rows[1..])
  }

  /** `orderBy: { createdAt: "desc" }` */
  predicate NewestFirst(s: seq<TourRow>) {
    forall i, j :: 0 <= i < j < |s| ==> s[i].createdAt >= s[j].createdAt
  }

  /** Places `t` before the first row that is not newer than it. */
  function InsertNewestFirst(t: TourRow, s: seq<TourRow>): seq<TourRow> {
    if s == [] || t.createdAt >= s[0].createdAt then [t] + s
    else [s[0]] + InsertNewestFirst(t, s[1..])
  }

  function SortNewestFirst(s: seq<TourRow>): seq<TourRow> {
    if s == [] then [] else InsertNewestFirst(s[0], SortNewestFirst(s[1..]))
  }

  /** GET /api/tours (the store's query, evaluated over all stored rows). */
  function ListPublished(rows: seq<TourRow>): seq<TourRow> {
    SortNewestFirst(VisibleRows(rows))
  }

  lemma {:induction false} InsertNewestFirstKeeps(t: TourRow, s: seq<TourRow>)
    requires NewestFirst(s)
    ensures NewestFirst(InsertNewestFirst(t, s))
    ensures multiset(InsertNewestFirst(t, s)) == multiset(s) + multiset{t}
  {
    InsertNewestFirstAdds(t, s);
    if s == [] || t.createdAt >= s[0].createdAt {
      NewestFirstCons(t, s);
    } else {
      var r := InsertNewestFirst(t, s[1..]);
      assert NewestFirst(s[1..]) by {
        forall i, j | 0 <= i < j < |s[1..]| ensures s[1..][i].createdAt >= s[1..][j].createdAt {
          assert s[1..][i] == s[i + 1] && s[1..][j] == s[j + 1];
        }
      }
      InsertNewestFirstKeeps(t, s[1..]);
      InsertNewestFirstAdds(t, s[1..]);
      forall k | 0 <= k < |r| ensures s[0].createdAt >= r[k].createdAt {
        assert r[k] in multiset(r);
        if r[k] != t {
          assert r[k] in multiset(s[1..]);
          var m :| 0 <= m < |s[1..]| && s[1..][m] == r[k];
          assert s[1..][m] == s[m + 1];
        }
      }
      NewestFirstCons(s[0], r);
    }
  }

  /** Inserting adds exactly the one row. */
  lemma {:induction false} InsertNewestFirstAdds(t: TourRow, s: seq<TourRow>)
    ensures multiset(InsertNewestFirst(t, s)) == multiset(s) + multiset{t}
  {
    if s != [] && t.createdAt < s[0].createdAt {
      InsertNewestFirstAdds(t, s[1..]);
      assert s == [s[0]] + s[1..];
    }
  }

  /** A row at least as new as every row of a newest-first list can go in
      front of it. */
  lemma NewestFirstCons(x: TourRow, s: seq<TourRow>)
    requires NewestFirst(s)
    requires forall k :: 0 <= k < |s| ==> x.createdAt >= s[k].createdAt
    ensures NewestFirst([x] + s)
  {
    var r := [x] + s;
    forall i, j | 0 <= i < j < |r| ensures r[i].createdAt >= r[j].createdAt {
      assert r[j] == s[j - 1];
      if i > 0 {
        assert r[i] == s[i - 1];
      }
    }
  }

  lemma {:induction false} SortNewestFirstKeeps(s: seq<TourRow>)
    ensures NewestFirst(SortNewestFirst(s))
    ensures multiset(SortNewestFirst(s)) == multiset(s)
  {
    if s != [] {
      SortNewestFirstKeeps(s[1..]);
      InsertNewestFirstKeeps(s[0], SortNewestFirst(s[1..]));
      assert s == [s[0]] + s[1..];
    }
  }

  lemma {:induction false} VisibleRowsExact(rows: seq<TourRow>)
    ensures forall t :: t in multiset(VisibleRows(rows)) ==> Visible(t)
    ensures forall t :: Visible(t) ==> multiset(VisibleRows(rows))[t] == multiset(rows)[t]
  {
    if rows != [] {
      VisibleRowsExact(rows[1..]);
      assert rows == [rows[0]] + rows[1..];
    }
  }

  /** The listing holds every published, non-deleted row (as often as it is
      stored) and nothing else, newest first. */
  lemma ListPublishedCorrect(rows: seq<TourRow>)
    ensures NewestFirst(ListPublished(rows))
    ensures forall t :: t in ListPublished(rows) ==> Visible(t) && t in rows
    ensures forall t :: t in rows && Visible(t) ==> t in ListPublished(rows)
    ensures forall t :: Visible(t) ==> multiset(ListPublished(rows))[t] == multiset(rows)[t]
  {
    SortNewestFirstKeeps(VisibleRows(rows));
    VisibleRowsExact(rows);
    forall t | t in ListPublished(rows) ensures Visible(t) && t in rows {
      assert t in multiset(ListPublished(rows));
    }
    forall t | t in rows && Visible(t) ensures t in ListPublished(rows) {
      assert t in multiset(rows);
    }
  }
}
