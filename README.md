# Claims review system: the claim store, the workflow handlers and the view helpers

This project models the core of an insurance-claim review application in Dafny:

- **The entity store** (`MemStorage`). It is a class with six JavaScript `Map` tables: users, claims, damage items, photos, cost-breakdown lines and audit entries.
  - Each table is modelled as `Tables.Table`: a sequence of keys in insertion order plus a map from key to record. As with a `Map`, re-setting an existing key keeps its position.
  - The store is seeded with one sample claim and its child records.
  - It answers lookups by id, by claim number and by claim.
  - It sorts a claim's audit log newest first.
  - Its `create*` methods normalise falsy optional fields.
- **The workflow handlers** of the HTTP API: patch, approve, reject, send-to-shop, batch-approve and reset.
  - Each is a method over one store.
  - A 404 answer is modelled as `Err(ClaimNotFound)`.
- **The view helpers** of the dashboard page and the photo viewer. These are pure list and string functions: photos of the selected category, the primary photo, the category tabs and their captions and counts, the highlighted damage items, and the thumbnail strip.

The module layout follows the program:

| Module | Models |
|---|---|
| `Wrappers` | `undefined`/`null` as `Option` |
| `Seqs` | `filter`, `find`, `Array.from(new Set(..))` |
| `Tables` | JavaScript `Map` |
| `Schema` | the record types of shared/schema.ts, the PATCH body, object spread as `Merge`, the falsy normalisers, and the audit `metadata` as a tagged union |
| `SampleData` | the seed literals |
| `Storage` | server/storage.ts |
| `Routes` | server/routes.ts |
| `Dashboard` | client/src/pages/dashboard.tsx |
| `PhotoViewer` | client/src/components/photo-viewer.tsx |

Representation choices:
- **Side effects:**
  - `randomUUID()` is a fresh id passed in by the caller, with a precondition that it is not already a key.
  - `new Date()` and `Date.now()` are a clock reading `now`, in milliseconds.
- **Money** is integer cents. The other two-decimal columns, hours and confidence, are integer hundredths.
- **Missing values:** `null` and `undefined` both map to `None`. A PATCH body field that is present but `null` maps to `Some(None)`.
- **Claim columns:** `aiConfidence`, `adjusterNotes` and `assignedShopId` are not columns of the claims table in shared/schema.ts. The handlers read and write them (server/routes.ts:110 and :189-190), so the model's `Claim` carries them as optional fields.
- **Status transitions:** the code does not check the current status before a transition, and neither does the model. Approving a rejected claim makes it approved.

## Model

| member | source | states |
|---|---|---|
| Storage.MemStorage.constructor | server/storage.ts:55-65 | a new store holds exactly the seed state built from the drawn ids and the clock, and every record sits under its own id |
| Storage.MemStorage.InitializeSampleData | server/storage.ts:67-240 | stores the sample claim under its id and then, in literal order, the 3 damage items, 3 photos, 4 cost lines and 3 audit entries; each table's new content is the old one with those records set |
| Storage.MemStorage.StoreRecords | server/storage.ts:86-239 | the seed writes leave every table keyed by record id and the state equal to the seed over the old state |
| Storage.MemStorage.StoreDamageItems | server/storage.ts:131 | `forEach(item => set(item.id, item))`: the damage-item table becomes the old one with each record set in order; no other table changes |
| Storage.MemStorage.StorePhotos | server/storage.ts:164 | the same for the photo table |
| Storage.MemStorage.StoreCostLines | server/storage.ts:206 | the same for the cost-line table |
| Storage.MemStorage.StoreAuditEntries | server/storage.ts:239 | the same for the audit table |
| Tables.SetEach | server/storage.ts:131 | the `forEach` loop of `set` calls equals setting the keys one after another (loop invariant on the prefix done) |
| Tables.Table.Get | server/storage.ts:288 | `get`: a value exactly when the key has one, and then the value stored under that key |
| Tables.Table.Set | server/storage.ts:292 | `set`: the key then holds the value and every other key keeps its value; a key already present keeps its position, a new key is appended last |
| Tables.Table.Values | server/storage.ts:298 | `Array.from(values())`: one value per key, the i-th being the value stored under the i-th key in insertion order |
| Tables.SetAllFresh | server/storage.ts:131 | setting fresh distinct keys appends them in order and the values come out in the order given |
| Tables.ValuesSetPresent | server/storage.ts:292 | `set` on a key already present replaces that value in place and keeps the enumeration order |
| Tables.ValuesSetAbsent | server/storage.ts:283 | `set` on a new key appends its value at the end of the enumeration |
| Tables.KeyedValuesNoDup | server/storage.ts:271-273 | a table whose records carry their own key enumerates no record twice |
| Storage.SeedFacts | server/storage.ts:67-239 | after seeding: no users; exactly one claim, the sample claim, with the drawn id and status pending_review; 3 damage items, 3 photos, 4 cost lines and 3 audit entries, all with that claim id; cost lines summing to the claim's estimate |
| Storage.SampleCostsMatchEstimate | server/storage.ts:167-204 | 102000 + 148500 + 28500 + 5700 cents add up to the claim's 284700, and the labor line's amount is hours times rate (12.00 h at 85.00) |
| SampleData.SampleClaim | server/storage.ts:71-85 | the seeded claim carries the drawn id, number CLM-2024-001847, status pending_review and no AI confidence, and was submitted two hours before the clock reading |
| SampleData.SampleDamageItems | server/storage.ts:89-130 | three damage items, the i-th under the i-th drawn id, all belonging to the sample claim |
| SampleData.SamplePhotos | server/storage.ts:134-163 | three photos, the i-th under the i-th drawn id, all belonging to the sample claim |
| SampleData.SampleCostLines | server/storage.ts:167-205 | four cost lines, the i-th under the i-th drawn id, all belonging to the sample claim |
| SampleData.SampleAuditEntries | server/storage.ts:209-238 | three audit entries, the i-th under the i-th drawn id, all belonging to the sample claim |
| Storage.SeedFromFacts | server/storage.ts:67-239 | seeding empty tables enumerates each table's records in the order of the literal arrays, under the drawn keys |
| Storage.MemStorage.GetUser | server/storage.ts:243-245 | a user is found exactly when the id is a key, and it is the record stored under that id |
| Storage.MemStorage.GetUserByUsername | server/storage.ts:247-251 | none exactly when no user has the username; otherwise the first user in insertion order that has it |
| Storage.MemStorage.CreateUser | server/storage.ts:253-258 | the user is the insert record with the fresh id; only the users table changes, by that one appended record |
| Storage.MemStorage.GetClaim | server/storage.ts:261-263 | a claim is found exactly when the id is a key, and it carries that id |
| Storage.MemStorage.GetClaimByNumber | server/storage.ts:265-269 | none exactly when no claim has the number; otherwise the first claim in enumeration order with that number |
| Storage.MemStorage.GetAllClaims | server/storage.ts:271-273 | every stored claim exactly once, in insertion order: the i-th claim is the one stored under the i-th key, with no duplicates and the same members as the table |
| Storage.MemStorage.CreateClaim | server/storage.ts:275-285 | the claim is the insert record with the fresh id, `submittedAt` = now and a missing or empty status as "pending"; only the claims table changes, by one appended record |
| Storage.MemStorage.UpdateClaim | server/storage.ts:287-294 | unknown id: none, and the state is unchanged; known id: the spread of the patch over the stored claim, stored at the same position, with every other claim and every other table unchanged |
| Storage.MemStorage.GetDamageItemsByClaim | server/storage.ts:297-301 | exactly the damage items with that claim id, each once, in the order they stand in the table |
| Storage.MemStorage.CreateDamageItem | server/storage.ts:303-314 | the record with the fresh id and empty area, depth and repair type as null; one appended record, and every claim's item list grows by it exactly when the claim ids match |
| Storage.MemStorage.GetPhotosByClaim | server/storage.ts:317-321 | exactly the photos with that claim id, each once, in the order they stand in the table |
| Storage.MemStorage.CreatePhoto | server/storage.ts:323-334 | the record with the fresh id, `uploadedAt` = now, an empty thumbnail as null and a missing primary flag as false; one appended record, and only the matching claim's photo list grows by it |
| Storage.MemStorage.GetCostBreakdownByClaim | server/storage.ts:337-341 | exactly the cost lines with that claim id, each once, in the order they stand in the table |
| Storage.MemStorage.CreateCostBreakdown | server/storage.ts:343-353 | the record with the fresh id, absent hours and rate as null; one appended record, and only the matching claim's line list grows by it |
| Storage.MemStorage.GetAuditLogByClaim | server/storage.ts:356-360 | a permutation of the claim's entries, ordered by non-increasing timestamp with a missing timestamp counted as 0; entries with equal timestamps keep their insertion order |
| Storage.MemStorage.CreateAuditLog | server/storage.ts:362-373 | the entry with the fresh id, timestamp = now, missing metadata as `{}` and empty performedBy as null; only the audit table changes, by one appended entry |
| Storage.NewestFirst | server/storage.ts:359 | the sort returns a permutation of its input ordered newest first |
| Storage.NewestFirstIsStable | server/storage.ts:359 | the sort is stable: for every timestamp, the entries carrying it appear in their original order |
| Storage.InsertByTimeOrder | server/storage.ts:359 | inserting one entry into a newest-first list keeps it newest first |
| Storage.MemStorage.ResetToInitialData | server/routes.ts:264 | the store method the reset route calls (which storage.ts lacks) leaves exactly the state of a newly constructed store |
| Routes.PatchAndLog | server/routes.ts:51-63 | one `updateClaim`, then exactly one audit append when the claim exists; unknown id: 404 and nothing changes |
| Routes.UpdateClaimRoute | server/routes.ts:48-70 | PATCH: the body is spread over the claim, and one "claim_updated" entry by Sarah Johnson records the body; unknown id: 404, no table changes |
| Routes.ApproveClaim | server/routes.ts:73-100 | whatever the prior status: status "approved", agent notes = the notes (or none), one "claim_approved" entry with the notes and the estimate; unknown id: 404, nothing changes |
| Routes.RejectClaim | server/routes.ts:153-180 | whatever the prior status and however blank the reason: status "rejected", agent notes = the reason, one "claim_rejected" entry with the reason; unknown id: 404, nothing changes |
| Routes.SendToShop | server/routes.ts:183-211 | status "sent_to_shop", adjuster notes and shop id set, one "sent_to_shop" entry by Michael Chen naming the shop (a missing one prints as "undefined"); unknown id: 404, nothing changes |
| Routes.ShownShopId | server/routes.ts:201 | `${shopId}` shows the id, or "undefined" when it is missing |
| Routes.Candidates | server/routes.ts:108-111 | the batch picks exactly the claims pending review with the requested AI confidence |
| Routes.BatchApplied | server/routes.ts:116-121 | after a batch each candidate is approved with the batch note and every other claim is unchanged |
| Routes.ApprovedClaims | server/routes.ts:116-124 | the listed claims are the candidates, in order, each approved with the note "Auto-approved via batch approval for <c> confidence claims" |
| Routes.BatchApprove | server/routes.ts:103-150 | confidence defaults to "high"; the claims table becomes the batch-applied one with the same keys; the result counts and lists the candidates in store order; one "claim_batch_approved" entry per candidate is appended in that order, each with the batch size; no other table changes |
| Routes.ApproveCandidate | server/routes.ts:116-138 | one turn of the loop: the next candidate is stored approved and one entry is logged for it, so the loop invariant `BatchProgress` advances by one claim |
| Routes.BatchStepFacts | server/routes.ts:116-121 | before its turn a candidate is still stored unchanged under its id, so `updateClaim` always finds it |
| Routes.BatchLeavesNoCandidates | server/routes.ts:108-121 | after a batch for a confidence, no claim is left for another batch for it to pick |
| Routes.BatchIdempotent | server/routes.ts:108-121 | a second batch for the same confidence changes no claim |
| Routes.BatchWithoutCandidates | server/routes.ts:113-145 | with no candidate the batch changes no claim, returns 0 and an empty list, and logs nothing |
| Routes.BatchScenario | server/routes.ts:108-121 | three claims pending review with confidence high, high and medium: a "high" batch picks the first two, approves them and leaves the third |
| Routes.SeedHasNoCandidates | server/routes.ts:262-267 | the seeded claim carries no AI confidence, so right after a reset no batch picks anything |
| Routes.ResetData | server/routes.ts:258-274 | corrected reset: the store is back in the seed state and the success message is returned |
| Routes.ResetDataAsWritten | server/routes.ts:264 | as written: the call to the missing store method throws, so the route answers 500 and the store is unchanged |
| Routes.ResetAfterApprovalAsWritten | server/routes.ts:264 | approve the seeded claim, then reset as written: the claim is still approved |
| Routes.ResetAfterApproval | server/routes.ts:258-274 | approve the seeded claim, then the corrected reset: the claim is pending review again |
| Schema.OrNull | server/storage.ts:308-310 | `s \|\| null`: an empty or missing string becomes null and any other value is kept |
| Schema.OrDefault | server/storage.ts:281 | `s \|\| d`: an empty or missing string becomes the default and any other value is kept |
| Schema.Merge | server/storage.ts:291 | the spread keeps the claim's id; each field the patch supplies replaces the stored one, and each field it leaves out keeps the stored value |
| Seqs.Filter | server/storage.ts:298-300 | `filter` keeps exactly the elements that satisfy the predicate, never more elements than were given |
| Seqs.FilterConcat | server/storage.ts:298-300 | filtering distributes over concatenation, so kept elements keep their relative order |
| Seqs.FilterNoDup | server/storage.ts:298-300 | filtering a list without duplicates gives a list without duplicates |
| Seqs.FilterInOrder | server/storage.ts:298 | a filter over a list without repetitions lists the kept elements in the order they stand in the list |
| Seqs.Find | server/storage.ts:266-268 | `find`: none exactly when no element passes, otherwise the first one that does |
| Seqs.Distinct | client/src/pages/dashboard.tsx:65 | `Array.from(new Set(s))`: each distinct element exactly once, the same members as `s` |
| Seqs.DistinctFirstAppearanceOrder | client/src/pages/dashboard.tsx:65 | the distinct elements come in the order of their first appearance |
| Dashboard.ClaimNumberToUse | client/src/pages/dashboard.tsx:20 | a non-empty route parameter is used as it is; a missing or empty one gives "CLM-2024-001847" |
| Dashboard.DefaultIsSeededClaim | client/src/pages/dashboard.tsx:20 | the default claim number is the seeded claim's number |
| Dashboard.PhotosForCategory | client/src/pages/dashboard.tsx:59 | exactly the photos of the selected category |
| Dashboard.PhotosForCategoryKeepsOrder | client/src/pages/dashboard.tsx:59 | the selection keeps the photos' relative order |
| Dashboard.PrimaryPhoto | client/src/pages/dashboard.tsx:60 | the first primary photo of the category, else its first photo, else none; when present it is one of the category's photos |
| Dashboard.PhotoCategories | client/src/pages/dashboard.tsx:65 | every category that some photo has, each exactly once |
| Dashboard.PhotoCategoriesFirstAppearance | client/src/pages/dashboard.tsx:65 | the tabs come in the order in which their categories first appear |
| Dashboard.SeedPhotoCategories | client/src/pages/dashboard.tsx:65 | the seeded photos give the tabs front_bumper then side_panel |
| PhotoViewer.Split | client/src/components/photo-viewer.tsx:27 | `split('_')`: one piece more than there are separators, no piece holds one, and the first piece is the text before the first separator |
| PhotoViewer.JoinSplit | client/src/components/photo-viewer.tsx:31-33 | joining the pieces of a split with the separator gives back the string |
| PhotoViewer.SplitJoin | client/src/components/photo-viewer.tsx:31-33 | splitting pieces joined with a separator they do not hold gives back the pieces |
| PhotoViewer.CategoryPrefix | client/src/components/photo-viewer.tsx:27 | the part of the category before its first underscore: a prefix that holds no underscore and ends at an underscore or at the end |
| PhotoViewer.Includes | client/src/components/photo-viewer.tsx:27 | `includes`: a leading occurrence is found, and a text that is found is no longer than the string searched |
| PhotoViewer.IncludesIsSubstring | client/src/components/photo-viewer.tsx:27 | `includes` holds exactly when the text occurs at some position |
| PhotoViewer.RelevantDamageItems | client/src/components/photo-viewer.tsx:26-28 | exactly the items whose location includes the category's prefix |
| PhotoViewer.RelevantDamageItemsKeepOrder | client/src/components/photo-viewer.tsx:26-28 | the selection keeps the items' relative order |
| PhotoViewer.RelevantItemMentionsPrefix | client/src/components/photo-viewer.tsx:26-28 | a highlighted item's location holds the prefix as a substring |
| PhotoViewer.FormatCategoryName | client/src/components/photo-viewer.tsx:30-34 | split on `_`, capitalize each piece, join with spaces: the caption has exactly as many characters as the category |
| PhotoViewer.FormatCategoryNameByChars | client/src/components/photo-viewer.tsx:30-34 | the caption, character by character: underscores become spaces, a letter at the start or after an underscore is upper-cased, everything else is kept |
| PhotoViewer.FormatCategoryNameHasNoUnderscore | client/src/components/photo-viewer.tsx:30-34 | a caption holds no underscore |
| PhotoViewer.FormatCategoryNamePieces | client/src/components/photo-viewer.tsx:30-34 | for a category without spaces, the caption splits on spaces into the capitalized pieces, one per underscore-separated piece |
| PhotoViewer.CategoryPhotoCount | client/src/components/photo-viewer.tsx:36-38 | a tab's count is never more than the photos passed in, and is 0 exactly when none of them has that category |
| PhotoViewer.CategoryPhotoCountIsMultiplicity | client/src/components/photo-viewer.tsx:36-38 | a tab's count is the number of photos whose category it is |
| PhotoViewer.TabLabels | client/src/components/photo-viewer.tsx:54 | each tab shows its caption and the number of its category's photos among the photos passed in |
| PhotoViewer.TabCountAsWrittenZero | client/src/components/photo-viewer.tsx:36-38 | as written, a tab other than the selected one counts 0 |
| PhotoViewer.SeedSidePanelTabAsWritten | client/src/pages/dashboard.tsx:103 | on the seed with front_bumper selected, the side_panel tab counts 0 as written, though one photo is of the side panel |
| PhotoViewer.TabCountPositive | client/src/components/photo-viewer.tsx:36-38 | counted over all photos, every tab shown has at least one photo |
| PhotoViewer.ThumbnailStrip | client/src/components/photo-viewer.tsx:133 | `slice(0, 3)`: a prefix of the photos, of length min(3, n) |
| PhotoViewer.MoreCount | client/src/components/photo-viewer.tsx:148-150 | the "+k more" tile appears exactly when there are more than 3 photos |
| PhotoViewer.ThumbnailsAccountForEveryPhoto | client/src/components/photo-viewer.tsx:133-150 | the shown thumbnails plus k are all n photos, with k = n - 3 when the tile appears |
| PhotoViewer.ThumbnailSource | client/src/components/photo-viewer.tsx:142 | the thumbnail URL when it is non-empty, otherwise the photo URL |

## Left out

- HTTP plumbing:
  - routing, `req`/`res` and status codes beyond "404" and "500";
  - the try/catch paths of the handlers (other than the reset's, see Findings);
  - `console` logging;
  - the read-only GET routes, which only call the store readers modelled above.
- The response `message` strings, which print counts in decimal: the results model the counts, the confidence and the claims instead.
- `randomUUID` and `Date`: these are external calls. The model passes fresh ids and a clock reading `now` in as parameters.
- Concurrency: each handler runs alone and completes before the next starts. The `await` points are not interleaving points.
- `resetToInitialData` is not defined in server/storage.ts, so there is nothing in the source to model. The corrected reset rebuilds the state of a new store: the seed, with the users table emptied.
- Floating point and formatting:
  - `parseFloat` and currency formatting in the client;
  - the float comparison of the review panel's estimate check.
- `getRelativeTime` in the audit trail.
- Rendering, React state, toasts and query wiring.
- The review panel's blank-reason guard (client/src/components/review-panel.tsx:102) runs on the client only. The server model accepts a blank reason.
- `toUpperCase` affects ASCII letters only. Unicode case mapping is not modelled.
- Batch-approve and a body `confidence` of `null`: the model treats a missing or null confidence as the default "high". JavaScript defaults only `undefined`, so `null` would match claims whose `aiConfidence` was patched to `null`.
- Storage.MemStorage.UpdateClaim and Routes.UpdateClaimRoute: the PATCH body (server/routes.ts:50-51) reaches `updateClaim` unchecked, but the model's `ClaimPatch` carries only the claim's known fields, and no `null` for `claimNumber` or `status`. Three kinds of body are therefore out of the model:
  - A body with an `id` field. The spread at server/storage.ts:291 then overwrites the claim's id, while the claim stays stored under the old key. Every record sitting under its own id is then no longer an invariant of the source.
  - A body with keys outside the claim's fields. The spread keeps them on the stored claim.
  - A body with `null` for a non-nullable field.
- Routes.BatchApprove: the `if (updatedClaim)` guard is not a separate branch. Within the model the guard always holds, because every claim sits under its own id and each candidate is still stored when its turn comes. In the source, an earlier PATCH that rewrote an `id` breaks this. Example: claim B is stored under key b, and a PATCH gives it the id "a" of claim A. A batch that picks B then calls `updateClaim("a", …)`, which approves and logs A and leaves B pending. The model cannot reach that state.
- Routes.ShownShopId: a `shopId` of `null` in the body prints as "null" in the source. The model maps `null` and `undefined` both to `None`, which prints "undefined".
- One clock reading per handler call: `createAuditLog` calls `new Date()` for every entry (server/storage.ts:367). The model gives every entry a handler writes, including all the entries of one batch, the same `now`.
- Storage.MemStorage.CreateCostBreakdown: hours and rate are decimal strings in the source, and `hours || null` and `rate || null` (server/storage.ts:347-348) also turn an empty string `""` into null. Integer hundredths have no empty-string value, so the model cannot take that input; it keeps every present hours and rate as given.
- A single clock reading for the seed: `initializeSampleData` calls `Date.now()` once per timestamp (server/storage.ts:81, 142, 151, 160, 216, 225, 234). The model takes all of them from one `now`. So the two "2 hours ago" audit entries (server/storage.ts:216 and :225) always carry equal timestamps. The stable newest-first sort then returns the seeded log as analysis completed, photos uploaded, claim submitted. In the source the second reading can be a millisecond later, and the log then lists photos uploaded before analysis completed.
- A batch does not isolate per-claim failures: an exception anywhere answers 500 for the whole batch (server/routes.ts:103-150), and any claims already approved stay approved. The model has no exception path inside the batch loop.

## Findings

| source | as written | input that shows it | evidently intended | confidence | as-written member | corrected member |
|---|---|---|---|---|---|---|
| server/routes.ts:264 | calls `storage.resetToInitialData()`, a method `MemStorage` does not define; the call throws, the route answers 500 and nothing is reset | seed the store, approve the seeded claim, then POST /api/reset-data: the claim stays "approved" | the store is rebuilt to its seed state, so the claim is "pending_review" again | not executed | Routes.ResetAfterApprovalAsWritten | Routes.ResetAfterApproval |
| client/src/components/photo-viewer.tsx:36-38 | the tab count filters the `photos` prop, which the dashboard fills with the photos of the selected category only (client/src/pages/dashboard.tsx:103); every other tab shows (0) | the seeded photos with front_bumper selected: the side_panel tab shows (0) | each tab shows the number of the claim's photos in its category: (1) for side_panel | not executed | PhotoViewer.SeedSidePanelTabAsWritten | PhotoViewer.TabCountPositive |
