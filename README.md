# Marine tour booking site: request handling, forms and views

This project models the logic of a Next.js site that sells marine-life tours, and proves properties of that model in Dafny. The logic covered is:

- **Tour creation and listing** (`POST`/`GET /api/tours`).
  - POST checks the requested species ids against the species reference data and reports the unknown ones.
  - It stores the names of the requested species.
  - It builds the tour record with JavaScript `||` defaults.
  - It answers 201 with the tour, 400 naming the unknown ids, or 500.
  - GET lists the published, non-deleted tours, newest first.
- **The admin tour form.** This covers its zod schema, its initial values, the fields it renders, the choice between creating (POST) and updating (PATCH), the `isSubmitting` flag, and the option lists it builds from the species data.
- **The multi-select widget.** This covers unselecting, Backspace/Delete, Escape, the selectable options and choosing an option. The selection keeps a no-duplicates invariant.
- **The marine-life filter panel.** `updateFilter` sets or deletes one query key on a `URLSearchParams` object and navigates to the serialized query; `clearFilters` drops the query.
- **The mock PayPal order route.** It checks required fields by JavaScript truthiness and builds an order id.
- **The admin tour list.** It flattens each tour's equipment associations into `requiredEquipment` names.
- **The species grid.** It shows an empty state or one card per species, with at most two season badges and a short expedition summary.

The database, the species lookup, `Date.now()`, `Math.random()`, the router and the network are parameters or are left out:

- Tours and species data come in as sequences.
- The timestamp and the random text are arguments.
- Handlers return the response, or the URL they would navigate to.

One module per source file:

| file | module |
|---|---|
| `js_values.dfy` | `JsValues`: JSON values, truthiness, `||`, property reads that throw, `join`, `substring`, decimal rendering |
| `sequences.dfy` | `Sequences`: a fact about concatenation shared by the filter proofs |
| `marine_life_types.dfy` | `MarineLifeTypes`: the species record |
| `tours_route.dfy` | `ToursRoute` |
| `tour_form.dfy` | `TourForm`, with class `TourFormState` |
| `multi_select.dfy` | `MultiSelect`, with class `MultiSelect` |
| `marine_life_filters.dfy` | `MarineLifeFilters`, with class `SearchParams` |
| `checkout_order.dfy` | `CheckoutOrder` |
| `admin_tours.dfy` | `AdminTours` |
| `marine_life_grid.dfy` | `MarineLifeGrid` |

## Model

| member | source | states |
|---|---|---|
| JsValues.Or | app/api/tours/route.ts:100-119 | `a \|\| b` is `a` when `a` is truthy and `b` otherwise |
| JsValues.FalsyValues | app/api/checkout/create-paypal-order/route.ts:9 | the falsy JSON values are exactly undefined, null, false, 0 and "" |
| JsValues.Get | app/api/tours/route.ts:89-90 | reading a property throws exactly on undefined and null; a key an object has reads its field, and any other key of a non-null value reads undefined |
| JsValues.Substring | app/api/checkout/create-paypal-order/route.ts:22 | `substring` is never longer than the string or than the distance between its indices, and is the plain slice for in-range indices |
| JsValues.DecimalString | app/api/checkout/create-paypal-order/route.ts:22 | a rendered timestamp is a non-empty string of decimal digits |
| JsValues.DecimalRoundTrip | app/api/checkout/create-paypal-order/route.ts:22 | reading the rendered digits back gives the timestamp |
| JsValues.JoinLength | app/api/tours/route.ts:61 | `join` is as long as the elements and the separators between them |
| JsValues.JoinElementAt | app/api/tours/route.ts:61 | each character of element i sits in the joined text after the elements and separators before it |
| JsValues.JoinSeparatorAt | app/api/tours/route.ts:61 | after every element but the last comes the separator |
| MarineLifeTypes.Ids | app/api/tours/route.ts:52 | the valid ids are the species ids, one per species, in order |
| ToursRoute.UnknownIdsExact | app/api/tours/route.ts:51-56 | `UnknownIds`, the filter at route.ts:54-56: an id is reported as unknown iff it is requested and is not a string among the species ids |
| ToursRoute.UnknownIdsAppend | app/api/tours/route.ts:51-56 | `UnknownIds`: the unknown ids keep request order (the filter distributes over concatenation) |
| ToursRoute.UnknownIdsEmpty | app/api/tours/route.ts:58 | `UnknownIds`: no id is reported iff every requested id is known |
| ToursRoute.UnknownIdsMessageParts | app/api/tours/route.ts:61 | the 400 message starts with "Invalid marine life IDs: ", is exactly that prefix with no unknown id, and is as long as the prefix, the ids and the ", " between them |
| ToursRoute.UnknownIdInMessage | app/api/tours/route.ts:61 | every character of every reported id appears in the message at its place after the prefix |
| ToursRoute.SeparatorInMessage | app/api/tours/route.ts:61 | consecutive reported ids are separated by ", " in the message |
| ToursRoute.ElementTexts | app/api/tours/route.ts:61 | the ids render as text exactly when each of them does, one text per id in order; an id whose string conversion throws (an object with its own `toString` key) has no text |
| ToursRoute.SelectedNamesExact | app/api/tours/route.ts:68-70 | `SelectedNames`, the filter and map at route.ts:68-70: a stored species name is exactly the name of a species whose id was requested |
| ToursRoute.SelectedNamesAppend | app/api/tours/route.ts:68-70 | `SelectedNames`: the stored names follow the order of the species reference data |
| ToursRoute.CreateTour | app/api/tours/route.ts:46-131 | a 201 or a 400 only answers a request whose body parsed to a JSON object, and a 400 names at least one unknown id, none of which throws when `join` converts it |
| ToursRoute.CreateRejectsUnknownIds | app/api/tours/route.ts:58-65 | with any unknown id no record is built: the answer is 400 listing exactly the unknown ids, or, when one of them throws in `join` (route.ts:61), the 500 with the failure text |
| ToursRoute.CreateFailsOnUnconvertibleId | app/api/tours/route.ts:58-65 | `{"marineLifeIds": [{"toString": 1}]}` gets the 500 with the failure text, not a 400 |
| ToursRoute.NoTextThrows | app/api/tours/route.ts:61 | ids that all render as text never throw in `join` |
| ToursRoute.UnknownIdsRender | app/api/tours/route.ts:58-61 | when every requested id renders, so does every reported one |
| ToursRoute.CreateRejectionText | app/api/tours/route.ts:58-65 | the 400 error text is the message built from the rendered unknown ids |
| ToursRoute.CreateNamesUnknownIds | app/api/tours/route.ts:58-65 | for string ids the 400 error text is the prefix followed by exactly the unknown ids, joined by ", " |
| ToursRoute.CreateAcceptsKnownIds | app/api/tours/route.ts:68-123 | with all ids known and both locations present, the tour is created (201) with the requested ids and the selected names |
| ToursRoute.CreateFailsWithoutIdArray | app/api/tours/route.ts:124-130 | an unparsable or null body, or one without a `marineLifeIds` array, ends in 500 with the text "Failed to create marine experience" |
| ToursRoute.CreateFailsWithoutLocation | app/api/tours/route.ts:89-90 | a missing or null start or end location ends in 500 with the failure text even when every id is known |
| ToursRoute.CreatedDefaults | app/api/tours/route.ts:100-119 | `BuildRecord`, the record passed to `create`: absent lists become `[]` or the fixed fallback lists, a supplied empty array is kept, `published` defaults to false, a missing or empty `categoryId` becomes "MARINE_EXPERIENCE" |
| ToursRoute.InsertNewestFirstKeeps | app/api/tours/route.ts:31-33 | `InsertNewestFirst`: inserting a tour into a newest-first list keeps it newest-first and adds exactly that tour |
| ToursRoute.InsertNewestFirstAdds | app/api/tours/route.ts:31-33 | `InsertNewestFirst`: inserting adds exactly the one tour to the list |
| ToursRoute.SortNewestFirstKeeps | app/api/tours/route.ts:31-33 | `SortNewestFirst`, the `orderBy`: the sorted list is ordered by `createdAt` descending and is a permutation of its input |
| ToursRoute.VisibleRowsExact | app/api/tours/route.ts:27-30 | `VisibleRows`, the `where`: the filter keeps every published, non-deleted tour (with its multiplicity) and nothing else |
| ToursRoute.ListPublishedCorrect | app/api/tours/route.ts:27-33 | `ListPublished`, the GET handler: GET lists exactly the published, non-deleted tours, newest first |
| TourForm.ValidateAcceptsExactly | app/components/tours/TourForm.tsx:52-74 | `Validate`, the zod schema: the schema accepts iff every length, positive-integer, non-negative, enum and non-empty-list rule holds |
| TourForm.ShortConservationInfoRejected | app/components/tours/TourForm.tsx:58 | `Validate`: a missing or short `conservationInfo` is reported and the values are rejected |
| TourForm.AcceptedOutput | app/components/tours/TourForm.tsx:59-69 | `Validate`: accepted values come back with `tideDependency`, `requiredEquipment`, `images` and `published` defaulted, and nothing else changed |
| TourForm.DefaultValues | app/components/tours/TourForm.tsx:122-145 | the initial values as written leave `conservationInfo` and `departurePort` unset |
| TourForm.RenderedEditsKeepConservationInfo | app/components/tours/TourForm.tsx:199-439 | no rendered field changes `conservationInfo` |
| TourForm.FormAsWrittenNeverValid | app/components/tours/TourForm.tsx:122-145 | whatever the user types into the rendered fields, the form as written is rejected for `conservationInfo` |
| TourForm.DefaultValuesFixed | app/components/tours/TourForm.tsx:122-145 | the corrected initial values agree with the as-written ones on every other field, and take `conservationInfo` and `departurePort` from the tour, or "" when it has none |
| TourForm.EditingValidTour | app/components/tours/TourForm.tsx:122-145 | a stored tour whose values pass the schema passes unedited under the corrected initial values, and is rejected for `conservationInfo` under the as-written ones |
| TourForm.FillInTargets | app/components/tours/TourForm.tsx:52-74 | filling in a target types each constrained field once, in schema order |
| TourForm.FilledInAgrees | app/components/tours/TourForm.tsx:52-74 | after filling in a target the values agree with it on every constrained field |
| TourForm.FilledInAccepted | app/components/tours/TourForm.tsx:52-74 | values that agree with an accepted target on every constrained field are accepted |
| TourForm.FixedFormAcceptsFilledIn | app/components/tours/TourForm.tsx:52-74 | with the missing fields rendered, editing each constrained field to its value in an accepted target gives accepted values, from any corrected initial values; edits take any value of the field's type, whether or not a select offers it |
| TourForm.ApplyEditHolds | app/components/tours/TourForm.tsx:199-439 | `ApplyEdit`, one rendered field's `onChange`: an edit shows in the values it produces |
| TourForm.ApplyEditKeepsOthers | app/components/tours/TourForm.tsx:199-439 | `ApplyEdit`: an edit leaves the fields of other edits as they were |
| TourForm.ApplyEditsSplit | app/components/tours/TourForm.tsx:199-439 | `ApplyEdits`: applying two runs of edits is applying their concatenation |
| TourForm.SaveTargetChoice | app/components/tours/TourForm.tsx:150-151 | `SaveTarget`, the URL and method in `mutationFn`: with initial data the save is a PATCH to `/api/tours/{id}`, from which the id can be read back, otherwise a POST to `/api/tours`; the two URLs never coincide |
| TourForm.TourFormState.constructor | app/components/tours/TourForm.tsx:86 | the corrected form starts from the corrected initial values with `isSubmitting` false |
| TourForm.TourFormState.Edit | app/components/tours/TourForm.tsx:199-439 | an edit changes the values and leaves the flag |
| TourForm.TourFormState.Submit | app/components/tours/TourForm.tsx:181-184 | nothing is sent while a save is in flight (the submit button at line 449 is disabled); otherwise rejected values send nothing, and accepted values set `isSubmitting` and send the defaulted values to the chosen URL with the chosen method |
| TourForm.TourFormState.OnError | app/components/tours/TourForm.tsx:175-178 | an error clears `isSubmitting` |
| TourForm.TourFormState.OnSuccess | app/components/tours/TourForm.tsx:168-174 | success leaves `isSubmitting` set |
| TourForm.MarineLifeOptions | app/components/tours/TourForm.tsx:95-98 | one option per species, valued by its id and labelled by its name |
| TourForm.AllExpeditionsExact | app/components/tours/TourForm.tsx:102 | `AllExpeditions`, the `flatMap`: the flattened list holds exactly the expeditions of some species |
| TourForm.DistinctCorrect | app/components/tours/TourForm.tsx:101-102 | `Distinct`, `Array.from(new Set(...))`: the Set keeps each value once and exactly the values of its input |
| TourForm.DistinctOfDistinct | app/components/tours/TourForm.tsx:101-102 | `Distinct`: a list without duplicates passes through the Set unchanged |
| TourForm.DistinctFirstOccurrenceOrder | app/components/tours/TourForm.tsx:101-102 | `Distinct`: the values come in the order of their first occurrence in the input, as a Set iterates in insertion order |
| TourForm.ExpeditionOptions | app/components/tours/TourForm.tsx:101-106 | each expedition option's value and label are the distinct expedition at that position |
| TourForm.ExpeditionOptionsCorrect | app/components/tours/TourForm.tsx:101-106 | the expedition options have no duplicates and are exactly the expeditions of all species |
| MultiSelect.UnselectExact | app/components/ui/multi-select.tsx:41-43 | `Unselect`, the filter in `handleUnselect`: unselecting removes every occurrence of the item and keeps every other item |
| MultiSelect.UnselectAppend | app/components/ui/multi-select.tsx:41-43 | `Unselect`: unselecting keeps the other items in order |
| MultiSelect.UnselectAbsent | app/components/ui/multi-select.tsx:41-43 | `Unselect`: unselecting an item that is not selected changes nothing |
| MultiSelect.UnselectAt | app/components/ui/multi-select.tsx:41-43 | `Unselect`: in a duplicate-free selection, unselecting removes exactly the item's position and stays duplicate-free |
| MultiSelect.AfterKey | app/components/ui/multi-select.tsx:47-50 | Backspace or Delete with an empty input and a non-empty selection drops exactly the last item; otherwise the selection is unchanged |
| MultiSelect.SelectablesExact | app/components/ui/multi-select.tsx:57-59 | `Selectables`, the filter over `options`: the selectables are exactly the options whose value is not selected |
| MultiSelect.SelectablesAppend | app/components/ui/multi-select.tsx:57-59 | `Selectables`: the selectables keep option order |
| MultiSelect.ChooseKeepsNoDuplicates | app/components/ui/multi-select.tsx:107-113 | choosing an offered option keeps a duplicate-free selection duplicate-free and adds one item |
| MultiSelect.MultiSelect.constructor | app/components/ui/multi-select.tsx:38-39 | the widget takes any list from its parent and starts closed with an empty input; it satisfies the no-duplicates invariant iff that list has no duplicates |
| MultiSelect.MultiSelect.Offered | app/components/ui/multi-select.tsx:57-59 | the popover offers exactly the options whose value is not selected |
| MultiSelect.MultiSelect.HandleUnselect | app/components/ui/multi-select.tsx:41-43 | the item is no longer selected, the rest keep their order, and a duplicate-free selection stays duplicate-free |
| MultiSelect.MultiSelect.HandleKeyDown | app/components/ui/multi-select.tsx:45-55 | the selection follows `AfterKey`, Escape closes the popover, and a duplicate-free selection stays duplicate-free |
| MultiSelect.MultiSelect.SetInputValue | app/components/ui/multi-select.tsx:89-95 | typing replaces the input text only |
| MultiSelect.MultiSelect.SetOpen | app/components/ui/multi-select.tsx:62 | opening or closing changes only `open` |
| MultiSelect.MultiSelect.OnSelect | app/components/ui/multi-select.tsx:107-113 | choosing appends the option's value, which was not selected, at the end, clears the input and keeps a duplicate-free selection duplicate-free |
| MarineLifeFilters.DeleteEntryValues | app/components/marine-life/marine-life-filters.tsx:44-46 | `DeleteEntry`, `URLSearchParams.delete`: after `delete` the key has no value and every other key keeps its values in order |
| MarineLifeFilters.SetEntryValues | app/components/marine-life/marine-life-filters.tsx:42-43 | `SetEntry`, `URLSearchParams.set`: after `set` the key has exactly the new value and every other key keeps its values in order |
| MarineLifeFilters.SetEntryKeepsOthers | app/components/marine-life/marine-life-filters.tsx:40-48 | `SetEntry`: `set` leaves the pairs of other keys in place |
| MarineLifeFilters.DeleteEntryTwice | app/components/marine-life/marine-life-filters.tsx:44-46 | `DeleteEntry`: deleting a key twice is deleting it once |
| MarineLifeFilters.Utf8 | app/components/marine-life/marine-life-filters.tsx:48 | each character is one to four bytes, and ASCII is one byte |
| MarineLifeFilters.EncodeBytesRoundTrip | app/components/marine-life/marine-life-filters.tsx:48 | `EncodeBytes`, inside `Serialize`: form-urlencoding loses nothing: decoding it gives the bytes back |
| MarineLifeFilters.EncodeBytesNoSeparators | app/components/marine-life/marine-life-filters.tsx:48 | `EncodeBytes`: encoded names and values never contain `&` or `=` |
| MarineLifeFilters.EncodePlain | app/components/marine-life/marine-life-filters.tsx:48 | `EncodeBytes`: letters, digits and `*-._` are written as they are |
| MarineLifeFilters.SearchParams.constructor | app/components/marine-life/marine-life-filters.tsx:40 | the params start as a copy of the current pairs |
| MarineLifeFilters.SearchParams.Set | app/components/marine-life/marine-life-filters.tsx:43 | `set` replaces the pairs as the URL Standard defines |
| MarineLifeFilters.SearchParams.Delete | app/components/marine-life/marine-life-filters.tsx:45 | `delete` removes every pair with the key |
| MarineLifeFilters.UpdateFilter | app/components/marine-life/marine-life-filters.tsx:36-49 | the target is the path, "?" and the serialized pairs after the set or delete |
| MarineLifeFilters.UpdatedEntriesCorrect | app/components/marine-life/marine-life-filters.tsx:40-48 | `UpdatedEntries`, the set-or-delete branch: a non-empty value becomes the key's only value, an empty or missing one removes the key, and other keys and their order are kept |
| MarineLifeFilters.UpdateFromEmptyQuery | app/components/marine-life/marine-life-filters.tsx:48 | `Serialize` of `UpdatedEntries`: from an empty query a plain value gives `key=value` |
| MarineLifeFilters.ClearFilters | app/components/marine-life/marine-life-filters.tsx:51-53 | clearing navigates to the bare path |
| MarineLifeFilters.ClearFiltersKeepsPath | app/components/marine-life/marine-life-filters.tsx:48-53 | the cleared target is the path part of every filter update's target, before its "?", and has no query |
| MarineLifeFilters.LowerAscii | app/components/marine-life/marine-life-filters.tsx:74 | lower-casing keeps the length and maps exactly the letters A-Z to a-z |
| MarineLifeFilters.OptionValues | app/components/marine-life/marine-life-filters.tsx:72-74 | the item values are "all" followed by the lower-cased labels |
| MarineLifeFilters.OptionValueLower | app/components/marine-life/marine-life-filters.tsx:72-74 | no item value has an upper-case letter, and lower-casing it again changes nothing |
| MarineLifeFilters.ChoosingAllSetsKey | app/components/marine-life/marine-life-filters.tsx:72 | choosing "all" sets the key to `all` rather than deleting it |
| CheckoutOrder.UnparsedBodyFails | app/api/checkout/create-paypal-order/route.ts:25-31 | `CreateOrder`, the POST handler: the answer is 500 "Failed to create order" iff the body does not parse or is null |
| CheckoutOrder.MissingFieldRejected | app/api/checkout/create-paypal-order/route.ts:9-14 | `CreateOrder`: for a parsed body the answer is 400 "Missing required fields" iff one of the four fields is absent or falsy |
| CheckoutOrder.ZeroAndEmptyAreMissing | app/api/checkout/create-paypal-order/route.ts:9 | `CreateOrder`: zero participants, a zero price or an empty id count as missing |
| CheckoutOrder.AcceptedOrder | app/api/checkout/create-paypal-order/route.ts:22-24 | `CreateOrder`: with all four fields truthy the answer is 200 with only `orderID`, which is "order-", the timestamp, "-" and at most five characters |
| CheckoutOrder.OrderIdTimestamp | app/api/checkout/create-paypal-order/route.ts:22 | `OrderId`: the timestamp can be read back from the order id |
| CheckoutOrder.ExtraFieldsIgnored | app/api/checkout/create-paypal-order/route.ts:6-9 | `CreateOrder`: fields other than the four checked ones do not change the answer |
| AdminTours.NamesCorrect | app/dashboard/admin/tours/page.tsx:44 | `Names`: one equipment name per association, in association order |
| AdminTours.TransformCorrect | app/dashboard/admin/tours/page.tsx:42-45 | `Transform`: columns and relation carried over; `requiredEquipment` is the names, or `[]` without the relation |
| AdminTours.TransformAllCorrect | app/dashboard/admin/tours/page.tsx:42-45 | `TransformAll`, the `tours.map`: one output tour per input tour, in the same order |
| MarineLifeGrid.FirstTwo | app/components/marine-life/marine-life-grid.tsx:52 | `slice(0, 2)` is the prefix of length two, or the whole list when it is shorter |
| MarineLifeGrid.ExpeditionSummaryCases | app/components/marine-life/marine-life-grid.tsx:66-67 | `ExpeditionSummary`: the summary is empty, the one expedition, the two joined by ", ", or the first two followed by "..." |
| MarineLifeGrid.ExpeditionSummaryDependsOnFirstTwo | app/components/marine-life/marine-life-grid.tsx:66-67 | `ExpeditionSummary`: only the first two expeditions, and whether there are more, show |
| MarineLifeGrid.CardForCorrect | app/components/marine-life/marine-life-grid.tsx:28-52 | `CardFor`: the card links to `/marine-life/{slug}` and shows the first, at most two, seasons |
| MarineLifeGrid.CardsForCorrect | app/components/marine-life/marine-life-grid.tsx:27-28 | `CardsFor`: one card per species, in list order |
| MarineLifeGrid.GridCorrect | app/components/marine-life/marine-life-grid.tsx:12-28 | `Grid`, the component: the empty state shows iff there are no species; otherwise one card per species |

## Left out

- Database access (the Prisma queries and writes) is left out. Tours and species data are sequences passed in; the record POST would store is the result.
- The species lookup behind `getMarineLifeData` is not part of this model. Its result is a parameter.
- Authentication and session checks, the locations query, toasts, router navigation, react-query cache invalidation and the `fetch` calls are left out. They are external effects. Handlers return the response, the request, or the URL they would push.
- Page markup and styling are left out. Only the data each view shows is modelled.
- Binary floating point is left out. JSON numbers are `real`; the form's `z.coerce.number()` coercion is taken as already done, and a value that is not a number is `None`.
- Zod measures `.min` on strings in UTF-16 code units. The model counts Unicode characters, which differs only outside the Basic Multilingual Plane.
- MarineLifeFilters.LowerAscii: lower-cases ASCII letters only, because `toLowerCase` of other scripts needs Unicode case tables.
- ToursRoute.ErrorText: renders null, booleans, strings and objects without their own `toString` key as `join` does, but not numbers or nested arrays (the text is `None` for those), because JavaScript's number-to-string conversion is not modelled. Which ids are reported, and whether `join` throws on them (an object with its own `toString` key, at any depth of arrays), is modelled for every JSON value.
- TourForm.FixedFormAcceptsFilledIn: an edit may set a field to any value of its type. The selects for expedition type, seasons, species and difficulty offer only listed values, so an accepted target outside those lists cannot be entered in the page; the lemma does not capture that restriction.
- JsValues.DecimalString: renders timestamps as plain digits, which `${Date.now()}` always does: a time value is at most 8.64 × 10^15 milliseconds, far below the 10^21 where JavaScript switches to exponent notation.
- ToursRoute.SortNewestFirstKeeps: tours with equal `createdAt` are kept in some order, because the database does not promise any order among them.
- The admin tour query is out of scope: it passes `select` and `include` at the same level, which Prisma Client does not accept, so what it returns at run time is not modelled. The model takes the rows, with their equipment relation, as given.
- `new URLSearchParams(searchParams.toString())` is modelled as a copy of the current pairs. Parsing a query string back is modelled at the byte level only (`DecodeBytes`); UTF-8 decoding is left out.
- `Math.random().toString(36)` is the parameter `randomText`. Its form, `0.` followed by base-36 digits, is not modelled, so the suffix is bounded by length only.
- TourForm.TourFormState: models the corrected form, which starts from `DefaultValuesFixed` and has edits for `conservationInfo` and `endLocationId`; the form as written renders neither field and is covered by `FormAsWrittenNeverValid` and `RenderedEditsKeepConservationInfo`.
- TourForm.TourFormState.constructor: starts from `DefaultValuesFixed`, not from the as-written `DefaultValues`, for the same reason.
- The marine-life filter `Select` shows `currentFilters.x || undefined` as its value. That is display only and is left out.

## Findings

| source | as written | input that shows it | evidently intended | confidence | as-written member | corrected member |
|---|---|---|---|---|---|---|
| app/components/tours/TourForm.tsx:122-145 | `defaultValues` sets no `conservationInfo`, and no rendered field edits it, yet the schema (line 58) requires at least 20 characters; `endLocationId` likewise has no field | a new tour whose rendered fields are all filled in validly: the schema reports `conservationInfo` and the form never submits | the initial values take `conservationInfo` (and `departurePort`) from the tour or start empty, and the form renders a field for `conservationInfo` and for `endLocationId` | not executed | TourForm.FormAsWrittenNeverValid | TourForm.FixedFormAcceptsFilledIn |
