# Recipe app: store, form reconciler and list filter

This project models the logic of a small React Native recipe book in Dafny and proves properties of that model. There are three parts.

- **The recipe store** (`RecipeStore`). One persisted slot under the key `"recipes.v1"` holds the whole collection. Every operation reads the collection, transforms it and writes it back: `getAll`, `saveAll`, `bootstrapIfEmpty`, `add`, `update`, `remove` and `get`. The store is the class `RecipeStore.Store` with one mutable `slot` field. The slot is absent, unparsable, or a parsed array. The list transformations are functions, and their properties are lemmas.
- **The form reconciler** (`RecipeForm`). This is the create/edit screen without its rendering. It covers:
  - the `normalized` snapshot and the `isDirty` comparison against the baseline ref;
  - the baseline taken by the load effect;
  - the ordered checks of `submit`, with their alert messages;
  - the payload and the store call;
  - the row editors;
  - the leave guard with its single pending navigation action.

  The pure parts are functions. The screen's state (fields, flags and the two refs) is the class `RecipeForm.Form`, whose methods update it in place.
- **The list filter** (`RecipeList`). This is the type filter with its `"ALL"` sentinel, the filter options, and the load order "bootstrap, then read".

Helper modules:
- `Types` holds the record shapes.
- `Seqs` holds order-preserving `filter`, counting and subsequences.
- `Text` holds ECMAScript `trim`, over the exact WhiteSpace and LineTerminator set of the ECMAScript language specification (its "White Space" and "Line Terminators" sections).

The JSON-string comparison of the dirty check is modelled as equality of a five-field snapshot. Both stringifications write the same keys in the same order, so comparing the texts compares the snapshots. The baseline ref's initial empty string is the `Unset` baseline, which no snapshot equals.

Effects on the outside are parameters or recorded outputs:
- the clock readings and fresh ids (`Date.now`, `uid`) are parameters;
- the seed recipes and the category list are parameters, with the first category as the default type;
- navigation is recorded in the fields `dispatched` and `wentBack`.

Behaviour of the code that the model keeps as written:
- **`add` stamps the new record with two separate clock readings.** So `createdAt <= updatedAt` holds only for a monotone clock. Equal timestamps do not follow from this code, and the model follows the code.
- **The load baseline keeps the stored name and image untrimmed, while `normalized` trims them.** So a stored name with surrounding spaces opens dirty (`RecipeForm.LoadedClean`).
- **Submitted rows are saved as `{text}` only, with no id.** When such a recipe is edited again, all its rows share the absent id. `setRow` then rewrites every one of them, and `removeRow` drops them all (`RecipeForm.IdlessRowsEditTogether`, `RecipeForm.IdlessRowsRemoveTogether`).
- **`if (editingId)` treats the empty string as "not editing".**
- **`isDirty` is memoised on `normalized`, which is memoised on the five form fields.** A write to the baseline ref that sets no field does not refresh it. `RecipeForm.Form` keeps the memoised value in the field `dirty`:
  - the field is recomputed when a field setter changes its value;
  - it is always recomputed by the row helpers, which always build a new array;
  - it is recomputed by the found branch of the load effect, whose state updates and ref write form one batch.

  `IsDirty()` is the comparison evaluated now, and `Prevent()` reads the memoised flag. Two consequences:
  - an untouched new form is intercepted (see "## Findings");
  - after a submit it is `isSaving`, not a refreshed flag, that lifts the guard for the `goBack`.

## Model

| member | source | states |
|---|---|---|
| Seqs.Filter | src/storage/recipeStore.ts:46 | the result keeps exactly the elements the predicate accepts, never more elements than the input |
| Seqs.FilterIsSubseq | src/screens/RecipeListScreen.tsx:29 | a filter result is an order-preserving subsequence of its input |
| Seqs.FilterKeepsAll | src/screens/RecipeFormScreen.tsx:167-168 | filtering with a predicate that accepts every element returns the input unchanged |
| Seqs.FilterCount | src/storage/recipeStore.ts:46 | survivors plus dropped elements add up to the input length |
| Seqs.FilterAppend | src/screens/RecipeListScreen.tsx:29 | filtering distributes over concatenation (used by RecipeList.FilteredAfterAdd) |
| Text.AllSpaceConcat | src/screens/RecipeFormScreen.tsx:127 | joining two all-white-space strings gives an all-white-space string |
| Text.TrimStartSpec | src/screens/RecipeFormScreen.tsx:127 | the leading trim removes a white-space-only prefix and stops at a non-space |
| Text.TrimEndSpec | src/screens/RecipeFormScreen.tsx:127 | the trailing trim removes a white-space-only suffix and stops at a non-space |
| Text.TrimSpec | src/screens/RecipeFormScreen.tsx:127-131 | trim never lengthens; it is empty exactly when the text is all white space; a non-empty result starts and ends with a non-space |
| Text.TrimOfTrimmed | src/screens/RecipeFormScreen.tsx:127 | a text with no white space at either end is its own trim |
| Text.TrimIdempotent | src/screens/RecipeFormScreen.tsx:127-131 | trimming twice equals trimming once |
| Text.Trim | src/screens/RecipeFormScreen.tsx:127-131 | `String.prototype.trim`; its properties are TrimSpec, TrimOfTrimmed and TrimIdempotent |
| RecipeStore.UpdateByIdPointwise | src/storage/recipeStore.ts:40 | update keeps length and order; records with the id become record-overlaid-with-patch at `now`; all others are unchanged |
| RecipeStore.UpdateWithoutMatch | src/storage/recipeStore.ts:38-42 | when no record has the id, update leaves the collection as it was |
| RecipeStore.OverlayKeepsIdentity | src/storage/recipeStore.ts:40 | a patch without id and createdAt keeps both, sets updatedAt to now, and takes each other field from the patch when present |
| RecipeStore.RemoveByIdSpec | src/storage/recipeStore.ts:44-47 | remove keeps exactly the records with another id, in order; the length drops by the number of matches |
| RecipeStore.FindByIdSpec | src/storage/recipeStore.ts:49-52 | find gives nothing exactly when no record has the id, and otherwise the first record with it |
| RecipeStore.FindAfterRemove | src/storage/recipeStore.ts:44-52 | after remove(id), get(id) finds nothing |
| RecipeStore.BootstrapIdempotent | src/storage/recipeStore.ts:19-28 | seeding twice, at any two times, leaves the slot as seeding once |
| RecipeStore.BootstrapNonEmpty | src/storage/recipeStore.ts:19-28 | after seeding from a non-empty seed list the collection is non-empty |
| RecipeStore.AddKeepsWellFormed | src/storage/recipeStore.ts:30-36 | with a fresh id and a monotone clock, add keeps ids unique and createdAt <= updatedAt |
| RecipeStore.UpdateKeepsIds | src/storage/recipeStore.ts:40 | a patch without id introduces no new id |
| RecipeStore.UpdateKeepsWellFormed | src/storage/recipeStore.ts:38-42 | update keeps ids unique and createdAt <= updatedAt when the patch leaves id and createdAt alone and now is not before creation |
| RecipeStore.RemoveKeepsWellFormed | src/storage/recipeStore.ts:44-47 | remove keeps ids unique and createdAt <= updatedAt |
| RecipeStore.WellFormedIff | src/storage/recipeStore.ts:30-47 | the collection invariant holds exactly when all ids are distinct and every record has createdAt <= updatedAt |
| RecipeStore.BootstrapKeepsWellFormed | src/storage/recipeStore.ts:19-28 | seeding keeps ids unique and createdAt <= updatedAt when the seed ids are distinct |
| RecipeStore.SeededWellFormed | src/storage/recipeStore.ts:23-25 | a seed list with distinct ids, stamped with one time, satisfies the invariant |
| RecipeStore.MatchesAtMostOne | src/storage/recipeStore.ts:44-47 | under the invariant at most one record carries a given id |
| RecipeStore.NoMatches | src/storage/recipeStore.ts:46 | no record with the id means no match |
| RecipeStore.SomeMatch | src/storage/recipeStore.ts:46 | a record with the id means at least one match |
| RecipeStore.RemoveDropsAtMostOne | src/storage/recipeStore.ts:44-47 | under the invariant remove shortens the collection by exactly one when the id is present, and leaves it unchanged when it is absent |
| RecipeStore.UpdateById | src/storage/recipeStore.ts:40 | the `map` of update; its properties are UpdateByIdPointwise, UpdateWithoutMatch and UpdateKeepsWellFormed |
| RecipeStore.RemoveById | src/storage/recipeStore.ts:46 | the `filter` of remove; its properties are RemoveByIdSpec, RemoveDropsAtMostOne and RemoveKeepsWellFormed |
| RecipeStore.FindById | src/storage/recipeStore.ts:51 | the `find` of get; its properties are FindByIdSpec and FindAfterRemove |
| RecipeStore.Bootstrapped | src/storage/recipeStore.ts:19-28 | the slot after seeding; its properties are BootstrapIdempotent, BootstrapNonEmpty and BootstrapKeepsWellFormed |
| RecipeStore.ListOf | src/storage/recipeStore.ts:11-12 | the parse of the slot; Store.GetAll states that it is the stored array when the slot parses and empty otherwise, and BootstrapNonEmpty and Refresh build on it |
| RecipeStore.Stamp | src/storage/recipeStore.ts:32 | the record `add` builds; Store.Add states it carries the draft's fields, the new id and both clock readings, and AddKeepsWellFormed that it keeps the invariant |
| RecipeStore.Overlay | src/storage/recipeStore.ts:40 | `{ ...r, ...patch, updatedAt }`; OverlayKeepsIdentity states which fields come from the patch, and RecipeForm.EditKeepsIdentity what the form's patch does to a record |
| RecipeStore.Seeded | src/storage/recipeStore.ts:23-25 | the seed list stamped with one time; SeededWellFormed states it keeps the invariant, and Store.BootstrapIfEmpty that every record gets createdAt = updatedAt = now |
| RecipeStore.Store.constructor | src/storage/recipeStore.ts:5 | the store is kept under the key "recipes.v1" and starts with the given slot contents |
| RecipeStore.Store.GetAll | src/storage/recipeStore.ts:9-13 | the collection `Contents()` reads from the slot: the stored array when the slot parses; the empty sequence when the slot is missing, empty or unparsable |
| RecipeStore.Store.SaveAll | src/storage/recipeStore.ts:15-17 | the slot afterwards holds exactly the given collection |
| RecipeStore.Store.BootstrapIfEmpty | src/storage/recipeStore.ts:19-28 | a non-empty collection is untouched; an empty one becomes the seed list with createdAt = updatedAt = now on every record |
| RecipeStore.Store.Add | src/storage/recipeStore.ts:30-36 | the new record is the draft with the given id and two timestamps; it is returned and stored first, ahead of the old records unchanged and in order |
| RecipeStore.Store.Update | src/storage/recipeStore.ts:38-42 | same length; records with another id unchanged; records with the id overlaid with the patch at now |
| RecipeStore.Store.Remove | src/storage/recipeStore.ts:44-47 | the collection becomes the old one filtered to other ids: an order-preserving subsequence, shorter by the number of matches |
| RecipeStore.Store.Get | src/storage/recipeStore.ts:49-52 | the first record with the id, or nothing exactly when no record has it |
| RecipeForm.NormalTextsMembers | src/screens/RecipeFormScreen.tsx:130-131 | every member of a normalised text list is non-empty and trimmed |
| RecipeForm.NormRowsNormal | src/screens/RecipeFormScreen.tsx:130-131 | normalised row texts are non-empty and trimmed, and there are no more of them than rows |
| RecipeForm.NormRowsAppend | src/screens/RecipeFormScreen.tsx:130-131 | row normalisation keeps the order: it distributes over concatenation |
| RecipeForm.NormRowsEmpty | src/screens/RecipeFormScreen.tsx:130-131 | the normalised rows are empty exactly when every row's text is all white space |
| RecipeForm.NormRowsOfNormal | src/screens/RecipeFormScreen.tsx:130-131 | normalising rows whose texts are already normal gives those texts back |
| RecipeForm.NormalizeIdempotent | src/screens/RecipeFormScreen.tsx:126-132 | normalising a normalised state is the identity |
| RecipeForm.NormRowsIgnoresIds | src/screens/RecipeFormScreen.tsx:130-131 | row ids take no part in normalisation |
| RecipeForm.NormRowsSingle | src/screens/RecipeFormScreen.tsx:130-131 | a non-blank row normalises to its trimmed text alone |
| RecipeForm.NormRowsAround | src/screens/RecipeFormScreen.tsx:130-131 | the normalisation of `a + [x] + m + [y] + b` is assembled from its pieces, in order |
| RecipeForm.SwapChangesRows | src/screens/RecipeFormScreen.tsx:130-131 | exchanging two non-blank rows with different trimmed texts, at any two positions, changes the normalised list |
| RecipeForm.SwappedRowsDirty | src/screens/RecipeFormScreen.tsx:130-137 | in either row list, exchanging two such rows at any two positions makes the form dirty against its previous baseline |
| RecipeForm.NormRows | src/screens/RecipeFormScreen.tsx:130-131 | trim every row's text and drop the empty ones; NormRowsNormal, NormRowsEmpty, NormRowsAppend and NormRowsIgnoresIds state its properties |
| RecipeForm.KeptText | src/screens/RecipeFormScreen.tsx:130-131 | one row's share of the normalised list; NormRowsSingle states that a non-blank row keeps its trimmed text alone |
| RecipeForm.Normalize | src/screens/RecipeFormScreen.tsx:126-132 | the `normalized` value; its properties are NormalizeIdempotent, NormRowsNormal, NormRowsEmpty, NormRowsAppend and NormRowsIgnoresIds |
| RecipeForm.Dirty | src/screens/RecipeFormScreen.tsx:134-137 | the comparison with the baseline; its properties are NewFormClean, NewFormExamples, UnsetAlwaysDirty, LoadedClean and SwappedRowsDirty |
| RecipeForm.TextsOfTextRows | src/screens/RecipeFormScreen.tsx:187-188 | texts written as id-less rows read back unchanged |
| RecipeForm.TextRows | src/screens/RecipeFormScreen.tsx:187-188 | one id-less row per text, with that text, in order |
| RecipeForm.Texts | src/screens/RecipeFormScreen.tsx:200-203 | one text per row, in order |
| RecipeForm.NewBaseline | src/screens/RecipeFormScreen.tsx:64-70 | the empty baseline of a new recipe; NewFormClean and NewFormExamples state which forms it makes clean |
| RecipeForm.LoadedRows | src/screens/RecipeFormScreen.tsx:52-53 | the stored rows, or one blank row when none are stored; LoadedClean states that this blank row leaves the loaded form clean |
| RecipeForm.ImageOrEmpty | src/screens/RecipeFormScreen.tsx:51 | a missing image shown as ""; LoadedClean and SubmittedSnapshot state how it enters the baselines |
| RecipeForm.NewFormClean | src/screens/RecipeFormScreen.tsx:64-70 | a new recipe's form is clean exactly when name and image are blank, the type is the default and every row is blank |
| RecipeForm.NewFormExamples | src/screens/RecipeFormScreen.tsx:64-70 | with blank rows, an empty or white-space name on a new form is not dirty; the name "Soup" is |
| RecipeForm.UnsetAlwaysDirty | src/screens/RecipeFormScreen.tsx:39 | before a baseline is taken every state is dirty |
| RecipeForm.LoadedClean | src/screens/RecipeFormScreen.tsx:49-61 | a freshly loaded form is clean exactly when the stored name and image have no surrounding white space |
| RecipeForm.LoadedState | src/screens/RecipeFormScreen.tsx:49-53 | the fields after a load; its properties are LoadedClean and SavedThenLoadedClean |
| RecipeForm.LoadedBaseline | src/screens/RecipeFormScreen.tsx:55-61 | the load baseline; its properties are LoadedClean and SavedThenLoadedClean |
| RecipeForm.PayloadOf | src/screens/RecipeFormScreen.tsx:183-189 | the payload; its properties are Validate's accepted clause, SubmittedSnapshot and EditKeepsIdentity |
| RecipeForm.CleanedIsNormalized | src/screens/RecipeFormScreen.tsx:167-168 | the length filter of submit drops nothing from the normalised rows |
| RecipeForm.PayloadRowsNormal | src/screens/RecipeFormScreen.tsx:187-188 | every row of a payload has a non-empty, trimmed text |
| RecipeForm.Validate | src/screens/RecipeFormScreen.tsx:170-189 | name required iff the name is blank; ingredient required iff the name is set and all ingredients are blank; step required iff both earlier checks pass and all steps are blank; an accepted payload has a non-empty name, non-empty id-less rows whose texts are all non-empty and trimmed, and no image exactly when the image is blank |
| RecipeForm.SnapshotOf | src/screens/RecipeFormScreen.tsx:200-203 | the baseline written after a save; SubmittedSnapshot states it equals the normalised form |
| RecipeForm.PatchOf | src/screens/RecipeFormScreen.tsx:196 | the payload as an update patch; EditKeepsIdentity states it keeps id and createdAt and replaces every content field |
| RecipeForm.SubmittedSnapshot | src/screens/RecipeFormScreen.tsx:200-203 | the baseline recorded after a submit equals the normalised form |
| RecipeForm.EditKeepsIdentity | src/screens/RecipeFormScreen.tsx:196 | saving an edit keeps the record's id and createdAt, replaces every content field with the payload, and stamps updatedAt |
| RecipeForm.SavedThenLoadedClean | src/screens/RecipeFormScreen.tsx:49-61 | a recipe stored from an accepted payload opens clean when loaded again |
| RecipeForm.SetTextPointwise | src/screens/RecipeFormScreen.tsx:217-220 | setRow keeps the length; rows with the id get the new text; all others are unchanged |
| RecipeForm.IdlessRowsEditTogether | src/screens/RecipeFormScreen.tsx:217-220 | on id-less rows (as submit saves them), editing any one row sets the text of all of them |
| RecipeForm.IdlessRowsRemoveTogether | src/screens/RecipeFormScreen.tsx:222-225 | on id-less rows (as submit saves them), removing any one row removes every row |
| RecipeForm.DistinctIdsEditOne | src/screens/RecipeFormScreen.tsx:217-220 | with distinct ids, editing row k changes row k only |
| RecipeForm.DropRowsSpec | src/screens/RecipeFormScreen.tsx:222-225 | removeRow keeps exactly the rows with another id, in order, and shrinks by the number of matches |
| RecipeForm.AppendBlank | src/screens/RecipeFormScreen.tsx:213-214 | the list of addRow; Form.AddRow states how it is used |
| RecipeForm.SetText | src/screens/RecipeFormScreen.tsx:218-219 | the `map` of setRow; its properties are SetTextPointwise, IdlessRowsEditTogether and DistinctIdsEditOne |
| RecipeForm.DropRows | src/screens/RecipeFormScreen.tsx:223-224 | the `filter` of removeRow; its property is DropRowsSpec |
| RecipeForm.Form.Editing | src/screens/RecipeFormScreen.tsx:46 | `if (editingId)`: a present, non-empty id; Form.Load and Form.Submit state what each branch does |
| RecipeForm.SubmitError.Message | src/screens/RecipeFormScreen.tsx:170-179 | the alert text of each rejected check; RejectScenario states the message of a nameless form |
| RecipeForm.Form.IsDirty | src/screens/RecipeFormScreen.tsx:135 | the comparison of the current fields with the current baseline |
| RecipeForm.Form.Prevent | src/screens/RecipeFormScreen.tsx:140 | intercept while the memoised flag is set and not saving |
| RecipeForm.Form.IntendedPrevent | src/screens/RecipeFormScreen.tsx:134-140 | intercept while the fields differ from the baseline now and not saving (the corrected guard of "## Findings") |
| RecipeForm.Form.constructor | src/screens/RecipeFormScreen.tsx:28-41 | the initial state: empty fields, the first type, one blank row per list, no baseline, the memoised flag set (the first comparison is with the empty ref), nothing pending, not saving |
| RecipeForm.Form.Load | src/screens/RecipeFormScreen.tsx:44-73 | new recipe: the empty baseline, with the memoised flag unchanged; found record: the loaded fields and the load baseline, with the flag recomputed; missing record: nothing changes |
| RecipeForm.Form.Fill | src/screens/RecipeFormScreen.tsx:49-61 | the fields from the record, the load baseline, and the flag recomputed against it |
| RecipeForm.Form.SetName | src/screens/RecipeFormScreen.tsx:28 | the name becomes the typed text; the flag is recomputed exactly when the value changes |
| RecipeForm.Form.SetType | src/screens/RecipeFormScreen.tsx:29 | the type becomes the chosen chip; the flag is recomputed exactly when the value changes |
| RecipeForm.Form.SetImageUrl | src/screens/RecipeFormScreen.tsx:123 | the image becomes the picked URI, or "" on removal; the flag is recomputed exactly when the value changes |
| RecipeForm.Form.AddRow | src/screens/RecipeFormScreen.tsx:211-215 | the chosen list gains one blank row at the end; the other list is unchanged; the flag is recomputed |
| RecipeForm.Form.SetRow | src/screens/RecipeFormScreen.tsx:217-220 | the chosen list gets the new text on every row with the id; the other list is unchanged; the flag is recomputed |
| RecipeForm.Form.RemoveRow | src/screens/RecipeFormScreen.tsx:222-225 | the chosen list loses every row with the id; the other list is unchanged; the flag is recomputed |
| RecipeForm.Form.BeforeRemove | src/screens/RecipeFormScreen.tsx:140-145 | intercepted exactly when the memoised flag is set and not saving; an intercept keeps the latest action and shows the sheet; otherwise nothing changes |
| RecipeForm.Form.ConfirmDiscard | src/screens/RecipeFormScreen.tsx:154-159 | hides the sheet, clears the pending action and dispatches it once if there was one |
| RecipeForm.Form.CancelDiscard | src/screens/RecipeFormScreen.tsx:160-163 | hides the sheet and clears the pending action without dispatching |
| RecipeForm.Form.Submit | src/screens/RecipeFormScreen.tsx:166-208 | the outcome of the ordered checks; a rejection calls no store operation and changes nothing; acceptance calls update when editing and add otherwise, records a baseline equal to the normalised fields, and goes back; the memoised flag keeps its value, and the set saving flag lifts the guard |
| RecipeForm.Form.Persist | src/screens/RecipeFormScreen.tsx:195-199 | update with the payload as the patch when editing, add of the payload otherwise |
| RecipeForm.Form.SavingSettled | src/screens/RecipeFormScreen.tsx:206 | the saving flag is cleared, and the guard is the memoised flag again |
| RecipeForm.OpenNewForm | src/screens/RecipeFormScreen.tsx:28-41 | an empty store and a new-recipe form after its load effect: blank fields, the empty baseline, the memoised flag still set |
| RecipeForm.TacosNamed | src/screens/RecipeFormScreen.tsx:28 | the new form with the name "Tacos" typed |
| RecipeForm.TacosWithIngredient | src/screens/RecipeFormScreen.tsx:217-218 | and the ingredient "Beef" typed into the blank row |
| RecipeForm.TacosForm | src/screens/RecipeFormScreen.tsx:217-219 | and the step "Cook" typed into the blank row |
| RecipeForm.CreateScenario | src/screens/RecipeFormScreen.tsx:166-208 | that form submits the payload "Tacos"/"Beef"/"Cook" with no image, the store then holds exactly the stamped record, and leaving is not intercepted |
| RecipeForm.RejectScenario | src/screens/RecipeFormScreen.tsx:170-173 | an untouched new form is rejected with "Recipe name is required." and the store stays empty |
| RecipeForm.StaleGuardScenario | src/screens/RecipeFormScreen.tsx:134-145 | leaving an untouched new form is intercepted although its fields equal the baseline |
| RecipeForm.FreshGuardScenario | src/screens/RecipeFormScreen.tsx:134-145 | under the intended guard an untouched new form may be left, and one with a typed name is intercepted |
| RecipeList.Filtered | src/screens/RecipeListScreen.tsx:28-31 | the `filtered` list; its properties are FilteredAll and FilteredByType |
| RecipeList.FilterOptions | src/screens/RecipeListScreen.tsx:40 | "ALL" first, then the category list in its order |
| RecipeList.FilteredAfterAdd | src/screens/RecipeListScreen.tsx:29 | after add prepends a record, the filtered list shows it first exactly when it matches the selection, followed by the previous filtered list |
| RecipeList.FilteredAll | src/screens/RecipeListScreen.tsx:28-31 | under "ALL" the list is shown unchanged |
| RecipeList.FilteredByType | src/screens/RecipeListScreen.tsx:29 | any other selection shows exactly the recipes of that type, as an order-preserving subsequence whose length is the number of such recipes |
| RecipeList.CountComplement | src/screens/RecipeListScreen.tsx:29 | the recipes of a type and those of other types add up to the list |
| RecipeList.Refresh | src/screens/RecipeListScreen.tsx:23-26 | the shown list is the stored collection after seeding, and it is non-empty whenever the seed list is |

## Findings

| source | as written | input that shows it | evidently intended | confidence | as-written member | corrected member |
|---|---|---|---|---|---|---|
| src/screens/RecipeFormScreen.tsx:134-145 | `isDirty` is memoised on `normalized` only. The first render compares the fields with the empty ref, which gives true. The new-recipe branch of the load effect (lines 64-70) writes the ref but sets no field, so the memo keeps that true value and `prevent` stays set | open a new recipe, type nothing, press back: the "Discard new recipe?" sheet appears although every field equals the baseline | an untouched new form may be left without a prompt, because the guard compares the fields with the baseline as it is now | medium; not executed | RecipeForm.StaleGuardScenario | RecipeForm.FreshGuardScenario |

`RecipeForm.StaleGuardScenario` drives the as-written screen (`Form.Prevent`, `Form.BeforeRemove`): the leave is blocked while `IsDirty()` is false. `RecipeForm.FreshGuardScenario` uses the corrected guard `Form.IntendedPrevent`. The untouched form may be left there, and a typed name is intercepted. `Form.Submit` states both guards: after an accepted submit neither intercepts. The screen model keeps the code's memoised guard, because that is what the screen does.

## Left out

- Batching in the load effect: the found branch's state updates and ref write are taken as one batch (automatic batching in asynchronous code). Without batching, the memo would be recomputed before the ref write, against the old baseline.

- AsyncStorage and JSON serialisation: the slot is an in-memory field. A missing or empty item is `Absent`, text that fails to parse is `Unparsable`, and a parsed array is `Parsed`. Text that parses to something other than an array is not modelled, because `saveAll` only ever writes arrays.
- Failures of the storage write: a rejected `setItem` inside `submit`'s `try`/`finally` is not modelled. Storage calls always succeed.
- `Date.now` and `Math.random` inside `uid`: timestamps and fresh ids are parameters. Id freshness is a `requires` where uniqueness is wanted (`RecipeStore.AddKeepsWellFormed`), because the code itself does not guarantee it.
- RecipeStore.Store.Update: the code reads the clock once per matched record; the model stamps every match with the single reading `now`.
- Async timing: the `setTimeout(…, 0)` before the store call, and the 300 ms timer that resets `isSaving`. The reset is the separate method `RecipeForm.Form.SavingSettled`.
- Overlapping store calls: they race on the whole slot; every model operation runs to completion.
- `Partial<Recipe>` patches that set a required field to `undefined`: `RecipeStore.Patch` can clear only `imageUrl`, which is the one field the form's patch may leave undefined.
- `(x.text || "")` on a row whose text is `undefined`: every row text is a string here, as in the record types.
- Permission checks, the camera and gallery picker, `openSettings`, the media sheet and picker options: an image choice is just `RecipeForm.Form.SetImageUrl`.
- `navigation.setOptions` (gesture enabling) and the native back-menu setting: their only input is `Prevent()`, which the model exposes.
- Navigation itself: `dispatch` and `goBack` are recorded in `dispatched` and `wentBack`.
- The seed recipes and the category list: these JSON files are not part of this model, so both are parameters.
- All JSX, styles and modals. Also the files src/components/RecipeCard.tsx, src/navigation/RootNavigator.tsx and src/screens/RecipeDetailScreen.tsx, which are presentation and wiring only.
