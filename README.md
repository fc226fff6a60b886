# Compass travel planner front end, modelled in Dafny

This project models the logic of the Compass travel-planning web client (a
React/TypeScript single-page application) and proves properties about it.

**The chat screen's stage pipeline.** Assistant messages carry loosely typed
JSON payloads. The chat screen:
- normalises places from them;
- extracts three planning stages: stage 1 holds candidate places by category, stage 2 a daily distribution, stage 3 the final itinerary;
- classifies each message by its type;
- folds the messages, last writer wins, into a three-slot stage state.

From a selection of places it also builds a day-by-day itinerary and an integer budget.

**The rest of the client.** Around that pipeline the model covers:
- the selection state machines of the stage progress panel, the stage-1 paging modal and the inline place-selection form;
- the normalisers of the chat and follow-up services, and the chat service's mock phase machine;
- JWT claim reading, and the user and admin authentication services over their token fields and local storage;
- the travel, quick-travel, date-range, sign-up, log-in and profile forms;
- the trip list, and the admin user and session tables.

**How JavaScript values are modelled.** JSON is a datatype
(`JsValue.Value`: undefined, null, booleans, numbers as reals, NaN, strings,
arrays, and objects as ordered key/value lists). JavaScript's `??` and `||`
are kept apart (`Coalesce` and `Or`), as are truthiness and nullishness.
`parseFloat`, `parseInt`, `Number`, `String` and `encodeURIComponent` are
modelled on decimal text. Pure code is functions and lemmas. Components and
services whose state changes step by step are classes whose methods are
proved against specification functions. Loops are methods with invariants:
- the budget's accumulation;
- the itinerary construction;
- the grouping of a flat place list;
- the panel's select-all records;
- the rebuild of the stage state from the message list.

## Model

| member | source | states |
|---|---|---|
| StagePlaces.ToNumber | src/components/ChatInterface.tsx:193-204 | a number is kept, a string gives its parseFloat reading, anything else gives nothing |
| StagePlaces.PlaceIdOf | src/components/ChatInterface.tsx:206-207 | the id is generated exactly when id, placeId and name are all nullish, and a generated id names the place's own slot |
| StagePlaces.Stage1PlaceDefaults | src/components/ChatInterface.tsx:206-217 | name, category, address and description are never nullish; a given name or category is kept, '장소' stands in when neither name nor placeName is given, and isRecommended is the truthiness of the flag |
| StagePlaces.FalsyIdKept | src/components/ChatInterface.tsx:206-220 | because `??` is used, an id of "" or 0 is kept as "" or "0" and not skipped; both mappers agree on the id |
| StagePlaces.ToNumberOfIntegerString | src/components/ChatInterface.tsx:193-204 | the decimal text of an integer converts back to that integer |
| StagePlaces.Stage1PlaceRoundTrip | src/components/ChatInterface.tsx:206-217 | writing a normalised stage-1 place out as JSON and mapping it again gives the same place |
| StagePlaces.Stage1PlaceIdempotent | src/components/ChatInterface.tsx:206-217 | mapping an already-mapped stage-1 place again changes nothing |
| StagePlaces.Stage2PlaceRoundTrip | src/components/ChatInterface.tsx:219-229 | writing a normalised stage-2 place out and mapping it again gives the same place, whatever the fallback day |
| StagePlaces.Stage2PlaceIdempotent | src/components/ChatInterface.tsx:219-229 | mapping an already-mapped stage-2 place again changes nothing, whatever the fallback day |
| StageExtract.NonEmpty | src/components/ChatInterface.tsx:250 | every category kept holds at least one place, and none is added |
| StageExtract.IndexOfName | src/components/ChatInterface.tsx:260-268 | the index found is the first group with that name, or -1 when no group has it |
| StageExtract.GroupByCategory | src/components/ChatInterface.tsx:259-279 | the grouping loop builds exactly the first-seen grouping `Groups` of the places |
| StageExtract.NumberOrParsed | src/components/ChatInterface.tsx:307-315 | the stage-3 numeric fields are a number, NaN or undefined |
| StageExtract.ExtractQuickFormInitial | src/components/ChatInterface.tsx:317-349 | a prefill is produced only when at least one prefill field is truthy |
| Stage1Properties.SortByCountSorted | src/components/ChatInterface.tsx:250 | the categories come out in descending order of place count, as a permutation of the input |
| Stage1Properties.SortByCountStable | src/components/ChatInterface.tsx:250 | the sort is stable: the categories of each count keep their input order |
| Stage1Properties.SortKeepsSum | src/components/ChatInterface.tsx:250-255 | sorting keeps every sum over the categories |
| Stage1Properties.NonEmptyKeepsTotals | src/components/ChatInterface.tsx:250-255 | dropping empty categories keeps the place and recommended totals |
| Stage1Properties.CategorisedStage1Correct | src/components/ChatInterface.tsx:240-256 | a categorised payload gives sorted, stable, non-empty and named categories; totalCount and recommendedCount are the payload's own or else the sums over the array-valued entries |
| Stage1Properties.CategorisedOrder | src/components/ChatInterface.tsx:240-256 | the sorted categories are ordered by count, non-empty, named, and hold the same categories of each count in order |
| Stage1Properties.CategorisedTotals | src/components/ChatInterface.tsx:252-255 | the totals of the sorted categories are those of the entries |
| Stage1Properties.KeysFirstSeenDistinct | src/components/ChatInterface.tsx:259-279 | the category keys of the grouping have no duplicates |
| Stage1Properties.GroupsCharacterised | src/components/ChatInterface.tsx:259-279 | each group holds exactly the places with its key, in input order, and the groups follow first-seen key order |
| Stage1Properties.GroupsTotals | src/components/ChatInterface.tsx:259-279 | grouping neither loses nor duplicates places or recommended places |
| Stage1Properties.GroupedStage1Correct | src/components/ChatInterface.tsx:259-279 | a flat payload gives first-seen groups whose totals are recomputed from the places, ignoring payload counts |
| Stage1Properties.ExtractStage1Shapes | src/components/ChatInterface.tsx:231-283 | the categorised shape wins over the flat one; the result is null when neither shape exists |
| Stage23Properties.SelectedSumNumeric | src/components/ChatInterface.tsx:300-303 | with numeric place counts, selectedCount is their arithmetic sum |
| Stage23Properties.Stage2Counts | src/components/ChatInterface.tsx:285-305 | stage 2 is null unless the days are an array; totalDays and selectedCount default to the day count and the count sum |
| Stage23Properties.Stage2DayNumbering | src/components/ChatInterface.tsx:285-305 | day = Number(day ?? dayNumber ?? index+1), placeCount defaults to the place count, each place's day defaults to its day |
| Stage23Properties.SelectedSumOfStringCounts | src/components/ChatInterface.tsx:300-303 | when place counts arrive as strings, the reduce concatenates them: counts "2" and "3" give "023" |
| Stage23Properties.Stage3Fields | src/components/ChatInterface.tsx:307-315 | stage 3 exists exactly for a truthy payload, and its fields are the payload's own or their defaults |
| Stage23Properties.Stage3NumericString | src/components/ChatInterface.tsx:307-315 | a decimal string distance is read as its number |
| Stage23Properties.QuickFormPrefill | src/components/ChatInterface.tsx:317-349 | the prefill copies exactly the truthy prefill fields, and is absent when there are none |
| StageClassifier.PlanLink | src/components/ChatInterface.tsx:383-385 | a link exists exactly for a non-empty thread id and is the travel-plan path with the URI-encoded id |
| StageClassifier.AssistantOnly | src/components/ChatInterface.tsx:352-354 | only assistant messages produce an update |
| StageClassifier.MessageTypeWins | src/components/ChatInterface.tsx:357 | a non-empty message type takes precedence over the payload's type |
| StageClassifier.StageTypesTouchOwnSlot | src/components/ChatInterface.tsx:361-376 | the stage-1 and stage-2 types set their own slot and nothing else |
| StageClassifier.Stage3TypeSetsStage3AndLink | src/components/ChatInterface.tsx:377-387 | the stage-3 types set stage 3 for any truthy payload, and the link only when a thread id is given |
| StageClassifier.QuickFormOpensForm | src/components/ChatInterface.tsx:388-395 | QUICK_FORM opens the travel form with the prefill and touches no stage |
| StageClassifier.OtherTypesUseStageNumber | src/components/ChatInterface.tsx:396-414 | any other type falls back to payload.stage combined with the matching field |
| StageReducer.ApplySlots | src/components/ChatInterface.tsx:473-490 | a slot the update defines is overwritten, and every other slot is unchanged |
| StageReducer.ChatStageState.constructor | src/components/ChatInterface.tsx:79-88 | the state starts with all three stages null, no link, no prefill, the travel form closed and the panel expanded |
| StageReducer.ChatStageState.ProcessStagePayload | src/components/ChatInterface.tsx:421-472 | the new state is the merge of the old one with the message's update, and a trip is created exactly for a stage-3 update |
| StageReducer.ChatStageState.ApplyUpdate | src/components/ChatInterface.tsx:425-472 | the new state is the merge of the old one with the update |
| StageReducer.ChatStageState.RebuildStageStateFromMessages | src/components/ChatInterface.tsx:473-490 | the rebuilt slots are the replay of the messages, and the form and panel flags are untouched |
| StageReducer.OverwriteDefined | src/components/ChatInterface.tsx:473-490 | one loop step applies exactly the slots the update defines |
| StageReducer.LastWriterWins | src/components/ChatInterface.tsx:473-490 | each final slot comes from the last message that addressed it |
| StageReducer.UnaddressedStaysNull | src/components/ChatInterface.tsx:473-490 | a slot no message addressed stays null |
| StageReducer.MergeFoldIsReplay | src/components/ChatInterface.tsx:425-490 | folding the incremental merge from the empty state reproduces the rebuild |
| StageReducer.MergeMonotone | src/components/ChatInterface.tsx:425-472 | an open travel form stays open and a form update opens it; an update touching a stage expands the panel, and a merge never collapses it |
| Budget.TravelersOf | src/components/ChatInterface.tsx:1103 | the travellers count, parseInt of the field or else 1, is never 0 |
| Budget.BudgetOf | src/components/ChatInterface.tsx:1126-1191 | total is exactly the sum of the four parts, accommodation is 0 for at most one day, food is the meal count or three a day, whichever is more |
| Budget.ResolvePrice | src/components/ChatInterface.tsx:1159-1179 | the price loop with its breaking table scan computes `ActivityPrice` |
| Budget.CountMeals | src/components/ChatInterface.tsx:1134-1146 | the nested meal-counting loop counts exactly the meal places of the flattened itinerary |
| Budget.PlaceCost | src/components/ChatInterface.tsx:1159-1179 | the place's cost is `ActivityCost`: 0 for a meal or cafe category, its table price otherwise |
| Budget.Scale | src/components/ChatInterface.tsx:1181 | the price is multiplied by the number of travellers |
| Budget.SumActivities | src/components/ChatInterface.tsx:1148-1183 | the activities loop computes the activities total of the flattened itinerary |
| Budget.AddDayActivities | src/components/ChatInterface.tsx:1148-1183 | one day's pass adds exactly that day's activity costs |
| Budget.ActivitiesScale | src/components/ChatInterface.tsx:1148-1183 | the activities total is the per-traveller sum times the travellers |
| Budget.CalculateBudget | src/components/ChatInterface.tsx:1102-1192 | the calculator's result is `BudgetOf` the plan, days and flattened categories |
| Budget.KeysAreLowerCase | src/components/ChatInterface.tsx:1106-1123 | every key of the price table is already lower case, so the lowercased lookup can hit it |
| Budget.MealCountAppend | src/components/ChatInterface.tsx:1134-1146 | the meal count of two lists is the sum of their counts |
| Budget.QuickFormCafeIsFree | src/components/ChatInterface.tsx:1134-1183 | in the quick-form calculator a cafe is neither a meal nor an activity, so adding one changes no part of the budget |
| Budget.ScenarioCafeIsMeal | src/components/ChatInterface.tsx:1325-1333 | in the scenario calculator a cafe counts as a meal and costs nothing as an activity |
| Budget.MealFloor | src/components/ChatInterface.tsx:1134-1191 | food uses three meals a day unless more meal places were visited |
| Budget.TravelersParsed | src/components/ChatInterface.tsx:1103 | the decimal text of n gives n travellers, and 0 gives 1 |
| Budget.TravelersOfNumber | src/components/ChatInterface.tsx:1103 | a whole number n gives n travellers, and 0 gives 1 |
| Budget.TravelersDefault | src/components/ChatInterface.tsx:1103 | an empty travellers field gives 1 |
| Budget.PriceFromTable | src/components/ChatInterface.tsx:1169-1179 | the price found is always the default or one of the table's prices |
| Budget.ExactPriceIn | src/components/ChatInterface.tsx:1169 | an exact hit is an entry of the table |
| Budget.FirstContainedIn | src/components/ChatInterface.tsx:1172-1178 | the scan's hit is the first table key, in declaration order, that the category contains |
| Itinerary.PlacesPerDayIsCeiling | src/components/ChatInterface.tsx:1039 | places per day is the ceiling of places over days |
| Itinerary.ToItineraryPlaces | src/components/ChatInterface.tsx:1069-1090 | each itinerary place is the conversion of the selected place at the same index |
| Itinerary.DaysUpTo | src/components/ChatInterface.tsx:1066-1099 | one day entry is built per day |
| Itinerary.BuildItinerary | src/components/ChatInterface.tsx:1066-1099 | the day loop builds exactly `ItineraryOf` the places and days |
| Itinerary.BuildDay | src/components/ChatInterface.tsx:1067-1098 | one loop iteration builds the day's entry from its window of places |
| Itinerary.ItineraryCoversSelection | src/components/ChatInterface.tsx:1039-1099 | the days' places, in order, are exactly the converted selection: none lost, none repeated |
| Itinerary.ItineraryShape | src/components/ChatInterface.tsx:1066-1099 | there is one entry per day, numbered 1..days, each with at most places-per-day places |
| Itinerary.NoDaysNoItinerary | src/components/ChatInterface.tsx:1066 | with fewer than one day the itinerary is empty |
| Itinerary.BudgetInputFlattens | src/components/ChatInterface.tsx:1102-1192 | the budget reads the categories of all itinerary places in order |
| Itinerary.ItineraryBudgetIsSelectionBudget | src/components/ChatInterface.tsx:1066-1192 | the budget of the built itinerary equals the budget of the selection itself |
| StagePanel.Stage1Entries | src/components/StageProgressPanel.tsx:169-191 | one entry per place for select-all, and one per recommended place for select-recommended |
| StagePanel.Stage2Entries | src/components/StageProgressPanel.tsx:197-206 | each place is keyed by its id with its day defaulted to the day holding it |
| StagePanel.StageProgressPanel.constructor | src/components/StageProgressPanel.tsx:79-82 | the panel starts with the collapsed prop, no selection and nothing expanded |
| StagePanel.StageProgressPanel.OnCollapsedChanged | src/components/StageProgressPanel.tsx:84-86 | the collapsed prop is copied and nothing else changes |
| StagePanel.StageProgressPanel.OnStage1Changed | src/components/StageProgressPanel.tsx:88-109 | a new stage 1 selects exactly the recommended places and expands the first two categories; no stage 1 clears both |
| StagePanel.StageProgressPanel.OnStage2Changed | src/components/StageProgressPanel.tsx:111-124 | a new stage 2 selects every place of every day; no stage 2 clears the selection |
| StagePanel.StageProgressPanel.HandleCategoryToggle | src/components/StageProgressPanel.tsx:136-141 | only the category's expansion flag flips |
| StagePanel.StageProgressPanel.ToggleStage1Place | src/components/StageProgressPanel.tsx:143-154 | the place's id is removed if present and otherwise added |
| StagePanel.StageProgressPanel.ToggleStage2Place | src/components/StageProgressPanel.tsx:156-167 | as for stage 1, storing the place with its day defaulted |
| StagePanel.StageProgressPanel.SelectAllStage1 | src/components/StageProgressPanel.tsx:169-178 | the selection becomes the record `Stage1SelectionOf` of every place of every category, keyed by id with a later place overwriting an earlier one of the same id; without a stage 1 nothing changes |
| StagePanel.StageProgressPanel.SelectRecommendedStage1 | src/components/StageProgressPanel.tsx:180-191 | the selection becomes the record of every recommended place, keyed by id with a later place overwriting an earlier one of the same id; without a stage 1 nothing changes |
| StagePanel.StageProgressPanel.ClearStage1 | src/components/StageProgressPanel.tsx:193-195 | the stage-1 selection becomes empty and nothing else changes |
| StagePanel.StageProgressPanel.SelectAllStage2 | src/components/StageProgressPanel.tsx:197-206 | the selection becomes the record `Stage2SelectionOf` of every place of every day, keyed by id, each with its day defaulted to the day holding it; without a stage 2 nothing changes |
| StagePanel.StageProgressPanel.ClearStage2 | src/components/StageProgressPanel.tsx:208-210 | the stage-2 selection becomes empty and nothing else changes |
| StagePanel.StageProgressPanel.Stage1Submission | src/components/StageProgressPanel.tsx:213-217 | one place is submitted per selected id, in `Object.values` order: ids that are array indices first in ascending order, then the others in insertion order |
| StagePanel.StageProgressPanel.Stage2Submission | src/components/StageProgressPanel.tsx:219-224 | one place is submitted per selected id, in `Object.values` order: ids that are array indices first in ascending order, then the others in insertion order |
| StagePanel.StageProgressPanel.HandleCollapseToggle | src/components/StageProgressPanel.tsx:444-448 | the collapsed flag flips and the new value is reported |
| StagePanel.CollectStage1 | src/components/StageProgressPanel.tsx:169-191 | the nested forEach builds exactly the stage-1 selection record `Stage1SelectionOf`, each place put under its id in visiting order |
| StagePanel.PutCategory | src/components/StageProgressPanel.tsx:172-176 | one category's loop assigns its entries in order |
| StagePanel.CollectStage2 | src/components/StageProgressPanel.tsx:197-206 | the nested forEach builds exactly the stage-2 selection record `Stage2SelectionOf`, each place put under its id in visiting order |
| PlaceSlots.ExtractedStage1FromSlots | src/components/ChatInterface.tsx:206-283 | every stage-1 place with a generated id, after grouping, filtering and sorting, is the place its own payload slot normalises to |
| PlaceSlots.Stage1GeneratedKept | src/components/StageProgressPanel.tsx:169-191 | select-all, and select-recommended for a recommended place, keeps a place with a generated id under its own id |
| PlaceSlots.TwoUnnamedPlacesKeptApart | src/components/StageProgressPanel.tsx:169-178 | two places given by name only under `placeName` stay two entries of the select-all record |
| PlaceSlots.ExtractedStage2AtOwnSlots | src/components/ChatInterface.tsx:285-298 | every stage-2 place with a generated id names the day and position it was read from |
| PlaceSlots.Stage2GeneratedKept | src/components/StageProgressPanel.tsx:197-206 | stage-2 select-all keeps a place with a generated id under its own id, with its day defaulted |
| StagePanelProperties.SubmissionOrder | src/components/StageProgressPanel.tsx:213-224 | the submitted places are a permutation of the selection with array-index ids first, ascending, and the other ids after them in insertion order |
| StagePanelProperties.SubmissionInSelectionOrder | src/components/StageProgressPanel.tsx:213-224 | with no array-index id the places are submitted in selection order |
| StagePanelProperties.NumericIdsSubmittedAscending | src/components/StageProgressPanel.tsx:213-224 | places selected under ids '10' then '2' are submitted '2' first |
| Records.OwnOrderCharacterised | src/components/StageProgressPanel.tsx:213-224 | own-key order is a permutation of the record with index keys first, ascending, and the other keys in insertion order |
| Records.OwnOrderWithoutIndices | src/components/StageProgressPanel.tsx:213-224 | with no index key, own-key order is insertion order |
| StagePanel.PutDay | src/components/StageProgressPanel.tsx:200-204 | one day's loop assigns its entries in order |
| StagePanelProperties.Stage1SelectionHas | src/components/StageProgressPanel.tsx:169-191 | an id is selected exactly when some (recommended) place of some category carries it |
| StagePanelProperties.Stage1SelectionValues | src/components/StageProgressPanel.tsx:169-191 | every selected value is such a place, under its own id |
| StagePanelProperties.Stage1SelectionSize | src/components/StageProgressPanel.tsx:169-191 | the record has no duplicate ids and at most as many entries as (recommended) places |
| StagePanelProperties.SelectAllWithinTotal | src/components/StageProgressPanel.tsx:126-134 | the selected count never exceeds the panel's stage-1 total |
| StagePanelProperties.Stage2SelectionHas | src/components/StageProgressPanel.tsx:111-206 | an id is selected exactly when some place of some day carries it |
| StagePanelProperties.Stage2SelectionValues | src/components/StageProgressPanel.tsx:111-206 | every selected value is a place of some day, under its id, with its day defaulted |
| StagePanelProperties.Stage2SelectionSize | src/components/StageProgressPanel.tsx:197-206 | the record has no duplicate ids and at most as many entries as places |
| StagePanelProperties.WithDayKeepsOwnDay | src/components/StageProgressPanel.tsx:111-206 | a place's own day wins; only a nullish day takes the holding day |
| StagePanelProperties.ToggledFind | src/components/StageProgressPanel.tsx:143-167 | toggling affects only the toggled id |
| StagePanelProperties.ToggleTwiceAbsent | src/components/StageProgressPanel.tsx:143-167 | toggling an absent id twice restores the record |
| StagePanelProperties.ToggledKeepsDistinct | src/components/StageProgressPanel.tsx:143-167 | toggling keeps the ids distinct |
| StagePanelProperties.CategoryToggleFlips | src/components/StageProgressPanel.tsx:136-141 | the category's expansion flips, flipping twice restores it, and other categories are unchanged |
| StagePanelProperties.InitialExpansionIsFirstTwo | src/components/StageProgressPanel.tsx:95-99 | exactly the keys of the first two categories start expanded |
| StagePanelProperties.FormatDurationWhole | src/components/StageProgressPanel.tsx:435-442 | for m = 60h + r minutes the label is 'h시간 r분', dropping a zero part |
| Stage1Modal.TotalPagesIsCeiling | src/components/Stage1PlaceSelectionModal.tsx:21-22 | the page count is the ceiling of n over 5, and 0 exactly for no places |
| Stage1Modal.PageSize | src/components/Stage1PlaceSelectionModal.tsx:62-65 | a page shows at most 5 places, and a page in range shows at least one |
| Stage1Modal.PagesCoverPlaces | src/components/Stage1PlaceSelectionModal.tsx:62-65 | the pages, in order, are exactly the places |
| Stage1Modal.NextPage | src/components/Stage1PlaceSelectionModal.tsx:113 | the corrected next page is never negative |
| Stage1Modal.NextPageAsWrittenLeavesRange | src/components/Stage1PlaceSelectionModal.tsx:113 | with no places, next as written moves the page to -1 |
| Stage1Modal.NextPageAsWrittenInRange | src/components/Stage1PlaceSelectionModal.tsx:113 | with at least one place, next as written stays in range and agrees with the corrected one |
| Stage1Modal.NavigationStaysInRange | src/components/Stage1PlaceSelectionModal.tsx:77-117 | prev and the corrected next keep the page in range and move it by at most one |
| Stage1Modal.SelectedInOrderIsSelection | src/components/Stage1PlaceSelectionModal.tsx:57-60 | confirm returns exactly the selected places, in their original order |
| Stage1Modal.Stage1PlaceSelectionModal.constructor | src/components/Stage1PlaceSelectionModal.tsx:19-20 | the modal starts on page 0 with nothing selected |
| Stage1Modal.Stage1PlaceSelectionModal.TogglePlaceSelection | src/components/Stage1PlaceSelectionModal.tsx:47-55 | one id's membership flips and the page is kept |
| Stage1Modal.Stage1PlaceSelectionModal.HandleConfirm | src/components/Stage1PlaceSelectionModal.tsx:57-60 | the confirmed list is the selected places in order |
| Stage1Modal.Stage1PlaceSelectionModal.PrevClicked | src/components/Stage1PlaceSelectionModal.tsx:77-83 | the page goes back by one, clamped at 0 |
| Stage1Modal.Stage1PlaceSelectionModal.NextClicked | src/components/Stage1PlaceSelectionModal.tsx:111-117 | as written: off the last page the page becomes `min(totalPages - 1, page + 1)`, so with no places it moves from 0 to -1; the selection is kept |
| Stage1Modal.Stage1PlaceSelectionModal.DotClicked | src/components/Stage1PlaceSelectionModal.tsx:120-127 | a page dot jumps to its page |
| PlaceSelectionForm.TimeBlocks | src/components/ChatInterface.tsx:697-702 | there are three time blocks |
| PlaceSelectionForm.TimeBlocksPartition | src/components/ChatInterface.tsx:697-702 | the three blocks, in order, are exactly the places, each at most a third rounded up, the first non-empty when there are places |
| PlaceSelectionForm.ConfirmedIsSelectionOrFallback | src/components/ChatInterface.tsx:719-728 | confirm sends the selected places in order, or the recommended ones when none is selected |
| PlaceSelectionForm.PlaceSelection.constructor | src/components/ChatInterface.tsx:690-691 | the form starts on the morning block with nothing selected |
| PlaceSelectionForm.PlaceSelection.TogglePlace | src/components/ChatInterface.tsx:709-717 | one id's membership flips and the block is kept |
| PlaceSelectionForm.PlaceSelection.HandleConfirm | src/components/ChatInterface.tsx:719-728 | the confirmed list is the selection or the fallback |
| PlaceSelectionForm.PlaceSelection.TabClicked | src/components/ChatInterface.tsx:743 | a tab selects its block |
| PlaceSelectionForm.PlaceSelection.PrevClicked | src/components/ChatInterface.tsx:755 | the block goes back by one, never below the first |
| PlaceSelectionForm.PlaceSelection.NextClicked | src/components/ChatInterface.tsx:795 | the block goes forward by one, never past the last |
| TravelPlanPage.FindFinalIsLast | src/pages/TravelPlanPage.tsx:391-396 | the message found is the last one carrying an itinerary, and none is found exactly when no message carries one |
| TravelPlanPage.MetaDays | src/pages/TravelPlanPage.tsx:381-388 | totalDays is the payload's own or else the itinerary's length |
| TravelPlanPage.LoadedPayloadFallsBack | src/pages/TravelPlanPage.tsx:345-369 | no thread id, no stored entry or a parse failure fall back to the built-in itinerary |
| TravelPlanPage.ChoosePayload | src/pages/TravelPlanPage.tsx:345-369 | the load decision computes `LoadedPayload` |
| TravelPlanPage.DayAtIsNthDay | src/pages/TravelPlanPage.tsx:456 | day n shows `itinerary[n - 1]`: the n-th day of an array, the n-th character of a string, the property named n - 1 of an object; nothing outside an array's or a string's range |
| TravelPlanPage.DayTabWithoutNumber | src/pages/TravelPlanPage.tsx:481 | a day tab without a day number selects its own position |
| TravelPlanPage.TravelPlan.constructor | src/pages/TravelPlanPage.tsx:326-333 | the page starts on day 1, loading, with an empty itinerary |
| TravelPlanPage.TravelPlan.HydrateItinerary | src/pages/TravelPlanPage.tsx:374-389 | a missing or empty itinerary sets the error, empties the itinerary and keeps meta; otherwise the itinerary and meta are stored |
| TravelPlanPage.TravelPlan.LoadFromLocation | src/pages/TravelPlanPage.tsx:345-369 | the page hydrates from the loaded payload and stops loading |
| TravelPlanPage.TravelPlan.DayTabClicked | src/pages/TravelPlanPage.tsx:481 | a tab selects its day and nothing else changes |
| ChatService.FollowUpAbsent | src/services/chatService.ts:428-437 | no question exactly when there is no raw question and no awaited input, or no text from any source |
| ChatService.FollowUpPresent | src/services/chatService.ts:439-452 | a produced question always has a question text, a step and an input type; it is required unless isRequired is false, skippable when canSkip or canGeneratePlan is set, and names the thread when one is given |
| ChatService.FollowUpFromBareMessage | src/services/chatService.ts:428-452 | a message awaiting input becomes a question built from its content |
| ChatService.SendMessageReplySources | src/services/chatService.ts:148-222 | the reply maps the last element of a non-empty array whose last element is not null or undefined (content, role or 'assistant'); exactly otherwise it carries no follow-up and is the assistant's Gemini response, or the apology when the Gemini call fails too |
| ChatService.LastMessage | src/services/chatService.ts:169-175 | the last message is the array's last element when the array is non-empty and that element is not null or undefined, and nothing for any other body but a string |
| ChatService.NullLastElementFallsBack | src/services/chatService.ts:174-207 | a thread reply ending in null falls back to the Gemini response |
| ChatService.MapListedMessages | src/services/chatService.ts:338-375 | each listed message is mapped at its own index |
| ChatService.GetMessagesKeepsOrder | src/services/chatService.ts:338-375 | an array with no null or undefined element keeps its length and order, each message naming the thread with content defaulted to ''; a failed request, a non-array body or a null or undefined element gives [] |
| ChatService.FirstNamedIsFirst | src/services/chatService.ts:277-282 | the destination is the first listed name the message contains, and the default exactly when it contains none |
| ChatService.MockStepMovesForward | src/services/chatService.ts:257-327 | a stored phase only ever advances by one rank; a message in the place phase clears the thread's phase and shows the place selection; the selection shows exactly in or on entering the place phase |
| ChatService.MockStepPhases | src/services/chatService.ts:264-327 | a travel word in phase 1 moves to processing, a date or head-count word in processing moves to phase 2, and every reply names the thread |
| ChatService.UnifiedChat.constructor | src/services/chatService.ts:272 | no thread has a stored phase |
| ChatService.UnifiedChat.SendUnifiedMessage | src/services/chatService.ts:231-330 | a server reply is passed through untouched; otherwise the mock step runs on the thread's stored phase and stores the next one |
| FollowUpService.NormalizeFailures | src/services/followUpService.ts:134-142 | normalising fails exactly for a falsy payload or one without sessionId and threadId |
| FollowUpService.NormalizedIds | src/services/followUpService.ts:139-146 | both ids are non-empty; a given sessionId is kept, a missing one is taken from threadId, and a given threadId is kept |
| FollowUpService.NormalizedQuestionAndMessage | src/services/followUpService.ts:147-160 | question and message are non-empty exactly when either is given; each keeps its own value when given, and question is '' when neither is |
| FollowUpService.NormalizedDefaults | src/services/followUpService.ts:150-159 | the counts default to 0, the flags to false, and the lists to [] |
| Jwt.SplitJoin | src/utils/jwtUtils.ts:21-25 | splitting gives one more segment than separators, none holding one, and joining them back restores the token |
| Jwt.ThreeSegmentsIffTwoDots | src/utils/jwtUtils.ts:21-25 | a token has the three segments of section 7.1 of RFC 7515 exactly when it holds two dots |
| Jwt.AlphabetSwap | src/utils/jwtUtils.ts:30 | the base64url alphabet of section 5 of RFC 4648 maps onto standard base64 without '-' or '_', and back |
| Jwt.PadToMultipleOfFour | src/utils/jwtUtils.ts:32 | padding appends 0 to 3 '=' and gives the least multiple of four at least the length |
| Jwt.DecodeNeedsThreeSegments | src/utils/jwtUtils.ts:18-42 | decoding is null unless the token has exactly three segments, and otherwise decodes the padded standard-alphabet payload |
| Jwt.UserIdOfDecimal | src/utils/jwtUtils.ts:50-61 | a decimal userId claim gives that id |
| Jwt.UserIdOfMissing | src/utils/jwtUtils.ts:50-61 | no payload, or a missing or empty userId, gives no id |
| Jwt.UsernameOf | src/utils/jwtUtils.ts:68-71 | the username is a truthy value or null, never an empty string |
| Jwt.RoleOfList | src/utils/jwtUtils.ts:110-117 | the role is the first of the roles, or 'USER' when they are absent or empty |
| Jwt.NoExpiryClaim | src/utils/jwtUtils.ts:78-103 | without an exp claim the token is expired and has 0 minutes left |
| Jwt.ExpiryAgrees | src/utils/jwtUtils.ts:78-103 | expired exactly when now is at least exp times 1000 (seconds per section 4.1.4 of RFC 7519); the minutes left are never negative, 0 once expired |
| Jwt.NonNumericExpiry | src/utils/jwtUtils.ts:78-103 | a non-numeric exp is never expired and leaves NaN minutes |
| AuthService.LocalStorage.constructor | src/services/authService.ts:10-14 | the storage holds the given items |
| AuthService.MirrorKeptByOtherKeys | src/services/authService.ts:10-14 | writes to other storage keys keep the token fields mirrored |
| AuthService.TokenUserId | src/services/authService.ts:148-174 | a token's id is never 0 and needs a present token |
| AuthService.CurrentUserId | src/services/authService.ts:148-174 | the id is the in-memory token's, else the stored token's, else the fallback 4, never 0 |
| AuthService.UserRoleIgnoresStorage | src/services/authService.ts:176-191 | with an in-memory token the stored one is not consulted; with neither the role is 'USER' |
| AuthService.Signup | src/services/authService.ts:83-96 | signup succeeds exactly on a created reply, and a 409 gives the fixed email-in-use message |
| AuthService.Auth.constructor | src/services/authService.ts:10-14 | the token fields are read from storage |
| AuthService.Auth.SaveTokens | src/services/authService.ts:69-75 | both tokens are stored in the fields and in storage |
| AuthService.Auth.Login | src/services/authService.ts:62-81 | a successful login stores both tokens; a failure stores nothing and reports the server's message or the default |
| AuthService.Auth.Logout | src/services/authService.ts:127-132 | both fields are cleared and both keys removed, so the user is no longer authenticated |
| AuthService.Auth.RefreshAccessToken | src/services/authService.ts:98-125 | no refresh token returns null at once; success stores both tokens; failure logs out; the fields stay mirrored |
| AdminAuthService.EmptyTokenIsNotAdmin | src/services/adminAuthService.ts:86-96 | an empty token is never an admin token |
| AdminAuthService.AdminAuth.constructor | src/services/adminAuthService.ts:23-27 | the admin token fields are read from storage |
| AdminAuthService.AdminAuth.SaveTokens | src/services/adminAuthService.ts:60-63 | both admin tokens are stored in the fields and in storage |
| AdminAuthService.AdminAuth.Login | src/services/adminAuthService.ts:41-77 | an admin token is stored; a non-admin token stores nothing and fails with the role message; a 401 gives the bad-credentials message |
| AdminAuthService.AdminAuth.Logout | src/services/adminAuthService.ts:79-84 | both fields and both admin keys are cleared |
| AdminAuthService.AdminAuth.RefreshAdminToken | src/services/adminAuthService.ts:133-170 | false without a refresh token; a refreshed admin token is stored; a failure or non-admin token logs out; true exactly on success |
| AdminAuthService.AuthenticatedIffAdmin | src/services/adminAuthService.ts:86-96 | the admin is authenticated exactly when the token is present and its role is ADMIN |
| AdminAuthService.AdminWritesKeepUserMirror | src/services/adminAuthService.ts:60-84 | admin token writes and removals never disturb the user tokens' storage keys |
| TravelFormModal.MergeIdempotent | src/components/TravelFormModal.tsx:98-125 | merging the same initial data twice is merging it once, and no data only resets the undecided flag |
| TravelFormModal.Submission | src/components/TravelFormModal.tsx:146-167 | submission succeeds exactly with a departure, a destination or undecided, and both dates; a missing departure is reported first, then a missing destination, then a missing date; when undecided no destinations are sent, and no other field changes |
| TravelFormModal.RemoveAt | src/components/TravelFormModal.tsx:76-79 | exactly index i is removed and the rest keep their order; an index out of range changes nothing |
| TravelFormModal.TravelForm.constructor | src/components/TravelFormModal.tsx:33-49 | the form starts empty and decided |
| TravelFormModal.TravelForm.HandleDepartureSelect | src/components/TravelFormModal.tsx:51-60 | only the departure and its coordinates change |
| TravelFormModal.TravelForm.HandleAddDestination | src/components/TravelFormModal.tsx:62-74 | nothing happens while undecided or for an empty or repeated input; otherwise it is appended and the input cleared; the list stays duplicate-free |
| TravelFormModal.TravelForm.HandleRemoveDestination | src/components/TravelFormModal.tsx:76-79 | the destination at the index is removed |
| TravelFormModal.TravelForm.HandleDateRangeSelect | src/components/TravelFormModal.tsx:81-89 | only the dates change |
| TravelFormModal.TravelForm.HandleStyleToggle | src/components/TravelFormModal.tsx:91-96 | a present style is removed and an absent one appended |
| TravelFormModal.TravelForm.OnOpen | src/components/TravelFormModal.tsx:98-125 | opening with data merges it field by field and clears the input; opening without data only resets undecided; closed changes nothing |
| TravelFormModal.TravelForm.ToggleDestinationUndecided | src/components/TravelFormModal.tsx:126-144 | turning undecided on clears the destinations and the input; turning it off keeps them |
| QuickTravelForm.ShownResultsArePrefix | src/components/QuickTravelForm.tsx:77 | at most 5 results are shown, the first ones |
| QuickTravelForm.ToggleUndecidedEffect | src/components/QuickTravelForm.tsx:97-103 | the flag flips, turning it on clears the destination, and no other field changes |
| QuickTravelForm.ToggleInterestTwice | src/components/QuickTravelForm.tsx:105-112 | an absent interest is appended, and toggling twice restores the list |
| QuickTravelForm.CopyIfPresentFind | src/components/QuickTravelForm.tsx:134-151 | a prefill step overwrites its field only when the result has it |
| QuickTravelForm.CopyReceiptFind | src/components/QuickTravelForm.tsx:130-151 | the receipt step copies each present field and leaves the rest |
| QuickTravelForm.OcrPrefillOnlyPresent | src/components/QuickTravelForm.tsx:130-151 | a present address sets the destination to the region, or else the address; absent fields are kept, and every other field follows the receipt copy |
| QuickTravelForm.SelectDepartureFields | src/components/QuickTravelForm.tsx:86-95 | the departure and its parsed coordinates are set, and nothing else changes |
| QuickTravelForm.SubmissionKeepsForm | src/components/QuickTravelForm.tsx:232-241 | the payload is the form plus the file and the OCR data |
| QuickTravelForm.QuickForm.constructor | src/components/QuickTravelForm.tsx:16-39 | the form starts with its defaults and no results, file or OCR data |
| QuickTravelForm.QuickForm.HandleInputChange | src/components/QuickTravelForm.tsx:53-70 | the field is set; a departure text starts a search, and an empty one hides the results |
| QuickTravelForm.QuickForm.SearchCompleted | src/components/QuickTravelForm.tsx:72-84 | a successful search shows at most 5 results; a failed one hides them |
| QuickTravelForm.QuickForm.SelectPlace | src/components/QuickTravelForm.tsx:86-95 | the departure is set and the results are hidden |
| QuickTravelForm.QuickForm.ToggleDestinationUndecided | src/components/QuickTravelForm.tsx:97-103 | the form takes the undecided toggle |
| QuickTravelForm.QuickForm.HandleInterestToggle | src/components/QuickTravelForm.tsx:105-112 | the form takes the interest toggle |
| QuickTravelForm.QuickForm.UploadReceipt | src/components/QuickTravelForm.tsx:114-163 | a file is taken when present, and on a drop only when it is an image; a successful OCR prefills the form |
| QuickTravelForm.QuickForm.RemoveFile | src/components/QuickTravelForm.tsx:224-230 | the file and the OCR data are cleared |
| EmailFormat.IndexOf | src/pages/SignupPage.tsx:37-41 | the index found is the first occurrence of the character, or the length |
| EmailFormat.IsEmailMatches | src/pages/SignupPage.tsx:37-41 | the e-mail test accepts exactly the strings of the pattern `^[^\s@]+@[^\s@]+\.[^\s@]+$` |
| EmailFormat.PatternParts | src/pages/SignupPage.tsx:37-41 | local part, domain and suffix of the pattern make an accepted address |
| EmailFormat.EmailExamples | src/pages/SignupPage.tsx:37-41 | 'a@b.c' passes; 'a@b', '@b.c' and 'a@@b.c' fail |
| SignupPage.Validate | src/pages/SignupPage.tsx:31-59 | validation passes exactly when all checks pass; the all-fields message is reported exactly when a field is empty, and each later message only when every earlier check passed and its own fails |
| SignupPage.PageErrorHidesServiceMessage | src/pages/SignupPage.tsx:73-78 | as written, every failure shows the generic message, the 409 one included |
| SignupPage.PageErrorShowsServiceMessage | src/pages/SignupPage.tsx:73-78 | corrected, a 409 shows the email-in-use message and every service message is shown |
| SignupPage.Signup.constructor | src/pages/SignupPage.tsx:9-16 | the form starts empty with no error |
| SignupPage.Signup.HandleChange | src/pages/SignupPage.tsx:18-29 | the confirmation goes to its own state, any other field to the form, and the error clears |
| SignupPage.Signup.Submit | src/pages/SignupPage.tsx:61-68 | a request is made exactly when validation passes; otherwise its error is shown |
| SignupPage.Signup.SignupFailed | src/pages/SignupPage.tsx:73-78 | as written, the page shows the response body's message or else the fixed one, and keeps the form |
| LoginPage.Validate | src/pages/LoginPage.tsx:25-38 | validation passes exactly with both fields and a well-formed email, empty fields reported first |
| LoginPage.Login.constructor | src/pages/LoginPage.tsx:9-14 | the form starts empty with no error |
| LoginPage.Login.HandleChange | src/pages/LoginPage.tsx:16-23 | the named field is set and the error clears |
| LoginPage.Login.Submit | src/pages/LoginPage.tsx:40-47 | a request is made exactly when validation passes |
| LoginPage.Login.LoginFailed | src/pages/LoginPage.tsx:51-52 | any failure shows the one fixed message |
| LoginPage.ChangeKeepsOtherFields | src/pages/LoginPage.tsx:16-23 | a change sets only the named field |
| ProfilePage.ProfileEmail | src/pages/ProfilePage.tsx:35-40 | the email is the token's username, or the default without a token or username |
| ProfilePage.AvatarLetter | src/pages/ProfilePage.tsx:177 | the avatar is the name's first character, or '김' for an empty name |
| ProfilePage.DisplayName | src/pages/ProfilePage.tsx:181 | the shown name is never empty and is the name when there is one |
| ProfilePage.Profile.constructor | src/pages/ProfilePage.tsx:9-25 | the page starts with empty info, not editing, modal closed |
| ProfilePage.Profile.LoadUserData | src/pages/ProfilePage.tsx:31-48 | the info comes from the token and the id from the auth service |
| ProfilePage.Profile.ToggleTravelStyle | src/pages/ProfilePage.tsx:63-77 | nothing changes unless editing; while editing a style is removed or appended |
| ProfilePage.Profile.StartEditing | src/pages/ProfilePage.tsx:313 | editing starts |
| ProfilePage.Profile.HandleSave | src/pages/ProfilePage.tsx:110-114 | editing ends with the info kept |
| ProfilePage.Profile.CancelEditing | src/pages/ProfilePage.tsx:303-304 | editing ends and the info is reloaded |
| ProfilePage.WithDetailSetsOnlyField | src/pages/ProfilePage.tsx:222-270 | an edit sets exactly its own detail, a later edit of the same detail replaces it, and the e-mail, styles and image are untouched |
| ProfilePage.Profile.ChangeDetail | src/pages/ProfilePage.tsx:222-270 | while editing the name, phone, birth date or gender input sets that detail; outside editing the disabled inputs change nothing |
| ProfilePage.Profile.OpenPasswordModal | src/pages/ProfilePage.tsx:325 | the change-password button opens the dialog and changes nothing else |
| ProfilePage.Profile.ClosePasswordModal | src/pages/ProfilePage.tsx:348-387 | the overlay and the cancel button close the dialog, keeping what was typed |
| ProfilePage.Profile.SetPasswordData | src/pages/ProfilePage.tsx:93-108 | the password fields are set |
| ProfilePage.Profile.HandlePasswordChange | src/pages/ProfilePage.tsx:93-108 | a mismatch keeps the modal open and the passwords; a match closes it and clears them |
| MyTripsPage.LabelUpcoming | src/pages/MyTripsPage.tsx:45-55 | the label holds 'D-' exactly for a confirmed trip with days left; PLANNING and CONFIRMED otherwise as written |
| MyTripsPage.StatusColors | src/pages/MyTripsPage.tsx:57-63 | the colour class follows the label: upcoming, ongoing, completed or none |
| MyTripsPage.FilteredTripsSelect | src/pages/MyTripsPage.tsx:65-72 | the filter is an order-preserving sublist, 'all' keeps every trip, and a trip is kept exactly when it passes |
| MyTripsPage.MyTrips.constructor | src/pages/MyTripsPage.tsx:13 | the page starts with no trips and the 'all' filter |
| MyTripsPage.MyTrips.LoadTrips | src/pages/MyTripsPage.tsx:19-32 | the trips are the loaded ones, or none on failure |
| MyTripsPage.MyTrips.SelectFilter | src/pages/MyTripsPage.tsx:88 | the filter is set and the trips kept |
| UserManagement.FilteredUsersSelect | src/pages/admin/UserManagement.tsx:91-96 | an order-preserving sublist of the users matching the lowercased search and the status; empty filters keep everyone |
| UserManagement.WithStatus | src/pages/admin/UserManagement.tsx:69-73 | only the matching user's status changes |
| UserManagement.StatusChangeUndone | src/pages/admin/UserManagement.tsx:63-77 | changing a user's status back restores the list |
| UserManagement.StatusChangeIdempotent | src/pages/admin/UserManagement.tsx:63-77 | changing to the same status twice is changing it once |
| UserManagement.DeleteUserEffect | src/pages/admin/UserManagement.tsx:79-89 | deleting keeps exactly the other users, in order, and an unknown id changes nothing |
| UserManagement.DeleteAfterStatusChange | src/pages/admin/UserManagement.tsx:63-89 | a status change before deleting the user leaves no trace |
| UserManagement.UserAdmin.constructor | src/pages/admin/UserManagement.tsx:15-17 | the table starts empty with empty filters |
| UserManagement.UserAdmin.FetchUsers | src/pages/admin/UserManagement.tsx:24-61 | the users are the fetched ones |
| UserManagement.UserAdmin.SetSearchTerm | src/pages/admin/UserManagement.tsx:108 | the search term is set |
| UserManagement.UserAdmin.SetFilterStatus | src/pages/admin/UserManagement.tsx:115 | the status filter is set |
| UserManagement.UserAdmin.HandleStatusChange | src/pages/admin/UserManagement.tsx:63-77 | the matching user's status changes |
| UserManagement.UserAdmin.HandleDeleteUser | src/pages/admin/UserManagement.tsx:79-89 | the user is removed only after confirmation |
| SessionManagement.PhaseText | src/pages/admin/SessionManagement.tsx:99-106 | phases 1, 2 and 3 have fixed names, and any other n is 'Phase n' |
| SessionManagement.PhaseTextInjective | src/pages/admin/SessionManagement.tsx:99-106 | different phases have different texts |
| SessionManagement.PhaseFilterSelects | src/pages/admin/SessionManagement.tsx:112-116 | the phase filter 'n' selects exactly the sessions of phase n |
| SessionManagement.FilteredSessionsSelect | src/pages/admin/SessionManagement.tsx:112-116 | an order-preserving sublist of the sessions passing both filters; 'all' keeps everyone |
| SessionManagement.Terminated | src/pages/admin/SessionManagement.tsx:84-88 | only the matching session becomes abandoned |
| SessionManagement.TerminateCounts | src/pages/admin/SessionManagement.tsx:79-93 | the terminated session can no longer be terminated, and the active count drops by the active sessions with that id |
| SessionManagement.TerminateActiveCount | src/pages/admin/SessionManagement.tsx:79-93 | the active count drops exactly when an active session had that id |
| SessionManagement.StatusText | src/pages/admin/SessionManagement.tsx:178-179 | '활성' exactly for active and '완료' exactly for completed |
| SessionManagement.SessionAdmin.constructor | src/pages/admin/SessionManagement.tsx:19-22 | the table starts empty with 'all' filters and no details |
| SessionManagement.SessionAdmin.FetchSessions | src/pages/admin/SessionManagement.tsx:28-77 | the sessions are the fetched ones |
| SessionManagement.SessionAdmin.SetFilterPhase | src/pages/admin/SessionManagement.tsx:126 | the phase filter is set |
| SessionManagement.SessionAdmin.SetFilterStatus | src/pages/admin/SessionManagement.tsx:136 | the status filter is set |
| SessionManagement.SessionAdmin.HandleTerminateSession | src/pages/admin/SessionManagement.tsx:79-93 | the session is terminated only after confirmation |
| SessionManagement.SessionAdmin.ViewDetails | src/pages/admin/SessionManagement.tsx:95-97 | the details show the session |
| SessionManagement.SessionAdmin.CloseDetails | src/pages/admin/SessionManagement.tsx:209 | the details close |
| MessageFormat.CloseAt | src/components/ChatInterface.tsx:1782 | the lazy bold match closes at a '**' with no line break before it |
| MessageFormat.CloseAtNone | src/components/ChatInterface.tsx:1782 | without a star nothing closes |
| MessageFormat.BoldPlain | src/components/ChatInterface.tsx:1782 | text without a star is unchanged |
| MessageFormat.BoldWraps | src/components/ChatInterface.tsx:1782 | a one-line star-free run between two pairs of stars becomes strong |
| MessageFormat.CloseWithin | src/components/ChatInterface.tsx:1782 | the match closes at the first '**' after a star-free one-line run |
| MessageFormat.BoldUnclosed | src/components/ChatInterface.tsx:1782 | unclosed stars are left as they are |
| MessageFormat.NumberedItemsPlain | src/components/ChatInterface.tsx:1785 | text without a digit is unchanged |
| MessageFormat.NumberedItem | src/components/ChatInterface.tsx:1785 | digits, a full stop and a white-space character become a break, the digits and '. ' |
| MessageFormat.DigitRunPrefix | src/components/ChatInterface.tsx:1785 | the digit run of digits followed by a non-digit is exactly those digits |
| MessageFormat.BulletsPlain | src/components/ChatInterface.tsx:1788 | text without a bullet mark is unchanged |
| MessageFormat.BulletAtLineStart | src/components/ChatInterface.tsx:1788 | a mark and a space at a line start become a break and '• '; elsewhere they are kept |
| MessageFormat.BreakLines | src/components/ChatInterface.tsx:1791-1792 | no newline is left |
| MessageFormat.BreakLinesAppend | src/components/ChatInterface.tsx:1792 | the replacement works piece by piece |
| MessageFormat.BreakLinesPlain | src/components/ChatInterface.tsx:1792 | text without a newline is unchanged |
| MessageFormat.PairsThenLines | src/components/ChatInterface.tsx:1791-1792 | replacing blank lines first gives the same result as replacing every newline |
| MessageFormat.FormatMessageContent | src/components/ChatInterface.tsx:1779-1795 | the formatted message holds no newline |
| MessageFormat.FormatPlain | src/components/ChatInterface.tsx:1779-1795 | the steps apply in order, and plain text without marks or newlines is unchanged |
| DateRangePicker.DaysInMonth | src/components/DateRangePicker.tsx:49-54 | a month has 28 to 31 days |
| DateRangePicker.NextDay | src/components/DateRangePicker.tsx:37-47 | the next day is a valid date |
| DateRangePicker.AddDays | src/components/DateRangePicker.tsx:37-100 | adding days gives a valid date |
| DateRangePicker.NextDayCounts | src/components/DateRangePicker.tsx:37-47 | the next day's number is one more |
| DateRangePicker.AddDaysCounts | src/components/DateRangePicker.tsx:37-100 | adding n days adds n to the day number |
| DateRangePicker.DayNumberInjective | src/components/DateRangePicker.tsx:111-120 | different dates have different day numbers |
| DateRangePicker.TwoDigits | src/components/DateRangePicker.tsx:49-54 | a padded month or day is two digits with its value |
| DateRangePicker.FourDigits | src/components/DateRangePicker.tsx:49-54 | a year from 1000 to 9999 is four digits with its value |
| DateRangePicker.ParseIsoDate | src/components/DateRangePicker.tsx:111-120 | a parsed date is valid |
| DateRangePicker.ParseFormatDate | src/components/DateRangePicker.tsx:49-54 | a formatted date is ten characters and parses back to itself |
| DateRangePicker.NextSaturday | src/components/DateRangePicker.tsx:37-47 | the next weekend starts 1 to 7 days ahead, on a Saturday |
| DateRangePicker.SaturdayOffset | src/components/DateRangePicker.tsx:39-45 | the offset lies in 1..7 and lands on weekday 6 |
| DateRangePicker.SaturdayAhead | src/components/DateRangePicker.tsx:39-45 | counted from any day number the offset lands on a Saturday |
| DateRangePicker.NextMonthStartAsWritten | src/components/DateRangePicker.tsx:84-90 | as written, the next-month option gives a valid first of a month |
| DateRangePicker.FirstOfNextMonth | src/components/DateRangePicker.tsx:84-90 | corrected, it gives a valid first of a month |
| DateRangePicker.NextMonthAsWrittenSkips | src/components/DateRangePicker.tsx:84-90 | as written the option skips a month exactly when the day does not exist next month: from 2025-01-31 it gives 2025-03-01 |
| DateRangePicker.FirstOfNextMonthFollows | src/components/DateRangePicker.tsx:84-90 | corrected, the option gives the day after the month's last day |
| DateRangePicker.QuickRange | src/components/DateRangePicker.tsx:64-100 | every quick range is made of valid dates; next month starts where the code as written starts it |
| DateRangePicker.QuickRangeSpans | src/components/DateRangePicker.tsx:64-100 | next weekend runs from the coming Saturday to Sunday; this week starts today, next week seven days later, next month on the as-written first of a month, later than today and within 62 days; those three span seven days |
| DateRangePicker.NextMonthAsWrittenFollows | src/components/DateRangePicker.tsx:84-90 | as written, next month starts after today and within 62 days, and where it differs from the corrected start it is the month after it |
| DateRangePicker.DefaultDates | src/components/DateRangePicker.tsx:20-21 | explicit props win over the initial dates, and both default to '' |
| DateRangePicker.SelectedRange | src/components/DateRangePicker.tsx:103-107 | a range is selected exactly when both dates are set |
| DateRangePicker.Nights | src/components/DateRangePicker.tsx:111-120 | nights are 0 without both dates and otherwise a whole, non-negative number or NaN |
| DateRangePicker.NightsSymmetric | src/components/DateRangePicker.tsx:111-120 | swapping the dates gives the same nights |
| DateRangePicker.NightsOfFormatted | src/components/DateRangePicker.tsx:111-120 | for formatted dates the nights are the day-number difference |
| DateRangePicker.QuickOptionNights | src/components/DateRangePicker.tsx:64-120 | each quick option yields its documented number of nights |
| DateRangePicker.DatePicker.constructor | src/components/DateRangePicker.tsx:20-25 | the picker starts with the default dates and the quick options shown |
| DateRangePicker.DatePicker.OnDefaultsChange | src/components/DateRangePicker.tsx:27-30 | the dates follow new props |
| DateRangePicker.DatePicker.ChangeStartDate | src/components/DateRangePicker.tsx:166-169 | the start date is set and the quick options hidden |
| DateRangePicker.DatePicker.ChangeEndDate | src/components/DateRangePicker.tsx:185-188 | the end date is set and the quick options hidden |
| DateRangePicker.DatePicker.HandleQuickOption | src/components/DateRangePicker.tsx:64-100 | an unknown option changes nothing; a known one sets the formatted range `QuickRange` gives (next month as written) and hides the options |
| DateRangePicker.SubmitDisabledIffNoSelection | src/components/DateRangePicker.tsx:103-107 | the button is disabled exactly when submitting would select nothing |

## Left out

- Numbers are mathematical reals. Doubles and their rounding are not modelled, nor are Infinity and -0. `parseFloat` and `Number` read decimal text, with a fraction and an exponent. Number-to-string conversion is exact only for whole numbers and finite fractions.
- `toLowerCase` is modelled on ASCII letters only. The categories and keywords the code compares are Hangul, which has no case.
- String lengths count characters, not UTF-16 code units. Texts with characters outside the basic plane can therefore differ in length from the browser's.
- Synthetic place ids from `Math.random` are `Generated` ids naming the place's slot (its category or day and its position), so each place gets its own; two random tokens colliding is not modelled. `Date.now` and the ISO timestamp are parameters. The random distance and quality score of the scenario itinerary are not modelled.
- Network calls are parameters holding their outcome (a reply or a failure) or left out:
  - the axios instance and its interceptors;
  - the chat, trip and follow-up endpoints;
  - the OCR request;
  - login, refresh and signup.
- `tripService.createTrip` on a stage-3 update is reduced to the `createsTrip` flag that `ChatStageState.ProcessStagePayload` returns.
- localStorage and sessionStorage are maps passed in or held by a `LocalStorage` object. That covers the user and admin token keys and the stored travel plan. The chat service's `phase_<thread>` entries are the `phases` map of `UnifiedChat`.
- `atob` and `JSON.parse` are an uninterpreted `Decoder` parameter. A thrown exception is its `None` result.
- Loading flags, `async` ordering, `setTimeout`, console output, the Kakao map SDK, the clipboard and routing are not modelled. `navigate` calls are left out.
- FileReader previews are not modelled, nor is the profile page's image upload (src/pages/ProfilePage.tsx:79-91), which only stores the reader's data URL. `UploadReceipt` takes the file's presence and type and the OCR outcome as inputs.
- ChatService.LastMessage: a non-array object body is taken to have no last message. An object carrying its own numeric `length` key, which `messages[messages.length - 1]` would index, is not modelled.
- `followUpService`'s `pendingRequests` de-duplication of concurrent requests is not modelled.
- Object keys compare by content. A JavaScript `Map` of the flat stage-1 grouping compares keys by identity, which agrees for the string keys used here. `Object.entries`, `Object.values` and `Object.keys` list array-index keys first, ascending, then the other keys in insertion order (`Records.OwnOrder`).
- Objects are modelled as dictionaries without a prototype: a key is present only when the object holds it as its own. In JavaScript a plain object also answers, through `Object.prototype`, to the names of its members (`constructor`, `toString`, `valueOf`, `hasOwnProperty`, `isPrototypeOf`, `propertyIsEnumerable`, `toLocaleString`, `__proto__`, `__defineGetter__`, `__defineSetter__`, `__lookupGetter__`, `__lookupSetter__`), and assigning to `__proto__` replaces the prototype instead of adding a key. The members below do not model a place id or category spelled as one of those names.
- Budget.CalculateBudget: the day count is a whole number. In the quick-form scenario it comes from the form's dates, which nothing validates (src/components/QuickTravelForm.tsx:22-24, 230-241); with a valid start date and an empty or invalid end date the source's `days` is NaN (src/components/ChatInterface.tsx:937-940), the day loop builds nothing, and accommodation, food, transportation and the total are NaN. With an invalid start date the source throws at the fixed itinerary's `toISOString` (src/components/ChatInterface.tsx:948) before any budget is computed. Neither outcome is modelled.
- Itinerary.BuildItinerary: a NaN day count is not modelled; the source's loop then runs no iteration, as the model's does for a count below one (`Itinerary.NoDaysNoItinerary`), but `Math.ceil(n / NaN)` makes the places per day NaN as well.
- Itinerary.CategoryText: a truthy category that is not a string (a number, an array or an object from the backend's places) is read as empty and priced as '기타'. The source throws a TypeError at `(place.category || '').toLowerCase()` (src/components/ChatInterface.tsx:1137) and `category.toLowerCase()` (src/components/ChatInterface.tsx:1160), so no budget is produced.
- Budget.CalculateBudget: for an activity category spelled as an `Object.prototype` member name, the price table answers with an inherited function, so the source's activities total and grand total become NaN; the model prices such a category like any unlisted one.
- Budget.ResolvePrice: an inherited `Object.prototype` member name makes the source's exact lookup truthy and returns that function as the price; the model finds no exact entry and falls back to the default or a contained key.
- Budget.PriceFromTable: states that the price is the default or a table price only for categories that are not `Object.prototype` member names; for those names the source's price is an inherited function.
- Budget.ExactPriceIn: covers own keys of the price table only, not inherited `Object.prototype` members.
- StagePanel.StageProgressPanel.OnStage1Changed: a recommended place whose id is `__proto__` is assigned through the prototype setter in the source and adds no key; the model adds it as an entry.
- StagePanel.StageProgressPanel.OnStage2Changed: as for stage 1, a place whose id is `__proto__` adds no key in the source; the model adds it.
- StagePanel.StageProgressPanel.ToggleStage1Place: an id naming an `Object.prototype` member (such as `constructor`) reads as present in the source, which then deletes nothing and never adds the place; the model adds it. A `__proto__` id likewise never becomes a key in the source.
- StagePanel.StageProgressPanel.ToggleStage2Place: the same inherited-name behaviour as `ToggleStage1Place` is not modelled.
- StagePanel.StageProgressPanel.SelectAllStage1: a place whose id is `__proto__` sets the record's prototype in the source and adds no key; the model adds it.
- StagePanel.StageProgressPanel.SelectRecommendedStage1: the same `__proto__` assignment is not modelled.
- StagePanel.StageProgressPanel.SelectAllStage2: the same `__proto__` assignment is not modelled.
- StagePanel.CollectStage1: the loop's `__proto__` assignment, which sets the prototype rather than adding a key, is modelled as an ordinary key.
- StagePanel.CollectStage2: the loop's `__proto__` assignment is modelled as an ordinary key.
- StagePanel.PutCategory: the same `__proto__` assignment is modelled as an ordinary key.
- StagePanel.PutDay: the same `__proto__` assignment is modelled as an ordinary key.
- StagePanel.StageProgressPanel.HandleCategoryToggle: a category named after an `Object.prototype` member reads the inherited function, which is not `true`, so the flag still becomes `true` as modelled; a `__proto__` category sets the prototype in the source and adds no key, which the model does not capture.
- Dates are the calendar of `YYYY-MM-DD` strings, for years 1 to 9999. `new Date()` is a `today` parameter. The picker's time zone and the `Date` parser's handling of other formats are not modelled.
- A session's phase is an integer.
- Rendering is not modelled: JSX, CSS, icons, and the HTML that `formatMessageContent` produces. That HTML is not escaped in the source, and the model does not escape it either.
- The following are predicates or functions stated by their definition only, with no further property:
  - `StagePanel.SubmitDisabled` and `StagePanel.PanelHidden`;
  - `StagePanel.TotalStage1Places` and `StagePanel.TotalStage2Places`;
  - `Stage1Modal.Stage1PlaceSelectionModal.ConfirmDisabled`;
  - `TravelPlanPage.TravelPlan.DurationShown`;
  - the tables' `Shown` functions.
- `TravelPlanPage.TravelPlan.DurationShown` uses the same hours-and-minutes rule as the panel. Only the panel's version carries the proved property (`StagePanelProperties.FormatDurationWhole`).
- Mock datasets are not reproduced. The scenario places, the mock itineraries and trips, and the built-in travel plan are a `sample` parameter.
- The chat service's mock replies carry their kind (`ChatService.ReplyKind`). Their text is `ChatService.ResponseText`, and no property is stated about the wording.
- StageReducer.ChatStageState.ProcessStagePayload: does not model the asynchronous trip creation's own failure handling, because it is network I/O.

## Findings

| source | as written | input that shows it | evidently intended | confidence | as-written member | corrected member |
|---|---|---|---|---|---|---|
| src/components/Stage1PlaceSelectionModal.tsx:113 | next sets the page to `min(totalPages - 1, page + 1)` | no places: totalPages is 0, so next moves the page from 0 to -1 | the page stays 0 when there are no pages | not executed | Stage1Modal.NextPageAsWrittenLeavesRange | Stage1Modal.NavigationStaysInRange |
| src/components/DateRangePicker.tsx:84-90 | next month is `setMonth(month + 1)` on today, then `setDate(1)` | today 2025-01-31: February 31 rolls over to 2025-03-03, giving 2025-03-01 | the first day of the following month, 2025-02-01 | not executed | DateRangePicker.NextMonthAsWrittenSkips | DateRangePicker.FirstOfNextMonthFollows |
| src/pages/SignupPage.tsx:73-78 | the catch shows a fixed generic message whatever the service reported | a 409 reply: the service raises the email-in-use message (src/services/authService.ts:91-93), the page shows '회원가입 중 오류가 발생했습니다' | the service's message, so the user learns the email is taken | not executed | SignupPage.PageErrorHidesServiceMessage | SignupPage.PageErrorShowsServiceMessage |

The components follow the code as written: `Stage1Modal.Stage1PlaceSelectionModal.NextClicked`, `DateRangePicker.QuickRange` (and so `DateRangePicker.DatePicker.HandleQuickOption`) and `SignupPage.Signup.SignupFailed` use the as-written definitions. The corrected definitions and their proved properties stand beside them.
