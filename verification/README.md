# My Requests listing and Request Help wizard, modelled in Dafny

This project models two blocks of an Adobe Edge Delivery site.

**My Requests** (`blocks/my-requests/my-requests.js`) lists a user's service requests. It runs as a pipeline:

1. It loads the requests by projecting an AEM requests folder into a flat list of records. There are four folder-structure modes. An unknown folder falls back to two sample records.
2. It filters the list on a search term, a date range, a document type and a status.
3. It sorts the list by a configured key and order.
4. It renders one page of the list, plus a pagination bar of page buttons and ellipses.

**Request Help** (`blocks/request-help/request-help.js`) is a four-step form: help type, service, details, submission. It is modelled as a state machine:

- the state is the current step and the collected form data;
- the transitions are the option clicks and the Previous and Next buttons; only Next is gated by `canProceed`, while Previous and the option clicks are not;
- the step indicator and the navigation buttons are views derived from the state.

Modules:

| file | module | models |
|---|---|---|
| `outcomes.dfy` | `Outcomes` | `Option` and `Result` |
| `text.dfy` | `Text` | case mapping, `includes`, extension stripping, decimal rendering and string order |
| `records.dfy` | `Records` | documents, folders and request records |
| `projection.dfy` | `Projection` | `loadItemsFromFolder`, `getSampleData` and `loadItems` |
| `filtering.dfy` | `Filtering` | the `applyFilters` predicate |
| `sorting.dfy` | `Sorting` | `sortItems` |
| `paging.dfy` | `Paging` | `Array.prototype.slice`, the page arithmetic of `render` and `renderPagination` |
| `my_requests.dfy` | `MyRequests` | the block state, its events and the `render` view |
| `request_help.dfy` | `RequestHelp` | the wizard |
| `folder_examples.dfy` | `FolderExamples` | facts about the folder literal the block ships with |

Dates are epoch milliseconds. "Now" and the local-calendar boundaries of the date-range buckets are passed in as a `Clock`.

Some behaviours of the code are easy to misread. The model follows the code in each of them:

- **`goToPage` stores any page number unchanged** (`my-requests.js` lines 757-760). It does not clamp it to `1..totalPages`. A page past the last one therefore renders an empty content area, and `render` does not switch to the empty state.
- **An unrecognised `sortBy` sorts by creation date** (lines 555-557). The configured order still applies.
- **The `type` sort key is the record's `type` field** (lines 551-553). That field is always `"request"`; the sort does not use `documentType`.
- **Step 2 of the wizard is always visited, whatever type was chosen in step 1.** The header comment of `request-help.js` (line 4) says step 2 applies "when Projects is selected", but `nextStep` (lines 276-284) always moves one step on.
- **Next on step 3 shows the submission panel without submitting** (`request-help.js` lines 276-284). It calls `showStep(4)` directly, so the "Request Submitted Successfully!" panel appears with the markup's placeholder reference (lines 189-195) before anything is collected or a reference is generated. Only the Submit click on step 4 calls `submitForm`.
- **`init` renders before any filter has run** (lines 63-68). So the empty state shows until the first filter event.

## Model

| member | source | states |
|---|---|---|
| Text.StripExtension | blocks/my-requests/my-requests.js:360 | `name.replace(/\.[^/.]+$/, '')`: the result is a prefix of the name. It differs from the name exactly when the name ends in a dot followed by one or more characters that are neither '.' nor '/'. When it differs, exactly that suffix is removed. A name with no '.' is unchanged. |
| Projection.ProjectFolder | blocks/my-requests/my-requests.js:317-398 | In `folderAsName` mode a sub-folder gives exactly one record. Its id and reference number are `RH-` + the upper-cased folder name, it has the folder's title, status and dates, and its description is "Request for " + the lower-cased folder title. In the three per-document modes it gives one record per document, in order. Those records are numbered `-1`, `-2`, … and carry the document's type, path and name. Their title is the folder title (`subfolderStructure`), the file name without extension (`fileName`), or the metadata title falling back to the folder title when absent or empty (`metadataTitle`). Their description is "Document: <name without extension> from <folder title>", "File from <folder title> folder" or "Document from <folder title>", respectively. Any other mode gives no records. |
| Projection.ProjectChildren | blocks/my-requests/my-requests.js:316-399 | The records of all sub-folders in listing order. `folderAsName` gives one record per folder, in folder order. Its id and reference number are `RH-` + the upper-cased folder name, it has the folder's title, status and dates, and its document type is "request". A per-document mode gives as many records as there are documents. An unknown mode gives none. |
| Projection.DocumentRecordPosition | blocks/my-requests/my-requests.js:317-399 | In a per-document mode the records come folder by folder: document j of folder i sits right after all documents of the earlier folders, and it is that folder's record j. |
| Projection.ProjectChildrenAppend | blocks/my-requests/my-requests.js:317-399 | Projecting two runs of sub-folders one after the other gives the records of the first run followed by those of the second. |
| Projection.LoadItemsFromFolder | blocks/my-requests/my-requests.js:309-314 | The result is the "folder not found" error exactly when the configured path is absent from the folder data. A known path always succeeds, with the projection of that folder's children. |
| Projection.SampleData | blocks/my-requests/my-requests.js:404-434 | The fallback list holds two records. |
| Projection.LoadItems | blocks/my-requests/my-requests.js:175-183 | A known path loads its projection. An unknown path loads the two sample records instead, and the error does not escape. |
| Projection.DocumentIdsDistinct | blocks/my-requests/my-requests.js:341 | The records of one folder's documents never share an id, because the 1-based index is rendered injectively. |
| Filtering.FilterItems | blocks/my-requests/my-requests.js:475-527 | The filter keeps every record that all switched-on conditions accept, as often as it occurs, and no other. The kept records keep their original relative order (an order-preserving subsequence). |
| Filtering.NoFiltersKeepsAll | blocks/my-requests/my-requests.js:475-527 | With all four filters empty the filtered list equals the loaded list. |
| Filtering.KeptItemsMatch | blocks/my-requests/my-requests.js:477-524 | A kept record came from the list. It satisfies the case-insensitive search over title, description and reference number. It satisfies each date-range bucket: today is [start of today, start of tomorrow); week is at most 7·24·60·60·1000 ms before the start of today; month, quarter and year are on or after the same date 1, 3 or 12 months back. It also has the selected document type and status. |
| Filtering.UnknownRangeExcludesNothing | blocks/my-requests/my-requests.js:489-513 | A date-range value the switch does not recognise filters exactly as if no date range were set. |
| Sorting.SortItems | blocks/my-requests/my-requests.js:534-566 | The result is a permutation of the filtered list. With order "asc" no record's key is smaller than an earlier record's key. With any other order no key is larger than an earlier one. Dates compare as instants and titles and types compare lower-cased. |
| Sorting.UnknownFieldSortsByCreation | blocks/my-requests/my-requests.js:555-557 | A sort field other than the four named ones orders exactly like `dateCreated`. |
| Sorting.SortedIsUnique | blocks/my-requests/my-requests.js:560-564 | When keys identify records, two key-ordered permutations of the same records are equal, so the sort outcome is determined. |
| Sorting.DescendingReversesAscending | blocks/my-requests/my-requests.js:560-564 | When keys identify records, the descending order is exactly the ascending order reversed. |
| Paging.Slice | blocks/my-requests/my-requests.js:591 | `slice(start, end)` with in-range indices is the sub-sequence from start to end. |
| Paging.TotalPages | blocks/my-requests/my-requests.js:588 | `Math.ceil(n / perPage)`: the smallest t with n ≤ t·perPage, and 0 exactly for no records. |
| Paging.PageItems | blocks/my-requests/my-requests.js:589-591 | Whatever page is stored, at most `itemsPerPage` records are shown. |
| Paging.RealPageSlice | blocks/my-requests/my-requests.js:587-591 | Page k with 1 ≤ k ≤ totalPages shows the records from position (k−1)·perPage up to min(k·perPage, n). |
| Paging.PageOutOfRangeEmpty | blocks/my-requests/my-requests.js:589-591 | A page past the last one, and page 0, show no records. |
| Paging.Entries | blocks/my-requests/my-requests.js:734-745 | The loop's page entries lie in from..totalPages in strictly increasing page order. Every button is for the first page, the last page or a page within two of the current one, and is active exactly when it is the current page. Every ellipsis is exactly three before or after the current page, on a page without a button. |
| Paging.EntriesComplete | blocks/my-requests/my-requests.js:734-745 | Every page that qualifies for a button gets one, and every page that qualifies for an ellipsis gets one. |
| Paging.Pagination | blocks/my-requests/my-requests.js:723-755 | The bar's entries are in strictly increasing page order within 1..totalPages, and only the current page's button is active. Previous is disabled exactly on page 1 and Next exactly on the last page. |
| Paging.PaginationButtons | blocks/my-requests/my-requests.js:735-741 | Page 1, the last page and every page within two of the current one appear as buttons. |
| Paging.PaginationEllipses | blocks/my-requests/my-requests.js:742-744 | An ellipsis stands at page i exactly when i is within 1..totalPages, three before or after the current page, and neither the first nor the last page. No page has both an ellipsis and a button. |
| MyRequests.Construct | blocks/my-requests/my-requests.js:8-25 | The constructor starts with no items, no filtered items, page 1 and all filters empty. The sort field and order default to "dateCreated" and "desc" when the configuration leaves them empty. |
| MyRequests.Init | blocks/my-requests/my-requests.js:63-68 | `init` loads the configured folder (or the sample set), leaves the filtered list empty and stays on page 1. Every other field (filters, sort field and order, page size) keeps the value the constructor gave it. |
| MyRequests.InitShowsEmptyState | blocks/my-requests/my-requests.js:63-68 | The first render after `init` shows the empty state, even when records were loaded. |
| MyRequests.ApplyFilters | blocks/my-requests/my-requests.js:474-532 | The filtered list holds exactly the kept records with their multiplicities, in key order for the configured order. The page returns to 1. The items, filters and sort settings are unchanged. |
| MyRequests.NoFiltersListsEverything | blocks/my-requests/my-requests.js:474-532 | With all filters empty the filtered list is a permutation of every loaded record. |
| MyRequests.OnFilterEvent | blocks/my-requests/my-requests.js:436-472 | Each filter control's listener stores its value in its own filter only, then re-filters. The filtered list then holds exactly the loaded records the updated filters keep, with their multiplicities, in key order for the configured order. The page returns to 1, and the items and sort settings are unchanged. |
| MyRequests.GoToPage | blocks/my-requests/my-requests.js:757-760 | The page is stored exactly as given and nothing else changes. |
| MyRequests.Render | blocks/my-requests/my-requests.js:568-603 | The empty state shows exactly when the filtered list is empty. After `init` that holds before any filter has run, even when records were loaded. Otherwise the current page's records are shown, at most a page's worth. The pagination bar appears exactly when there is more than one page, and it is the bar for the stored page. |
| MyRequests.FilterShowsFirstPage | blocks/my-requests/my-requests.js:529-531 | After a filter event the view shows the first `itemsPerPage` records of the sorted result. |
| MyRequests.PageBeyondLastShowsNothing | blocks/my-requests/my-requests.js:757-760 | Going to a page past the last one keeps the content area and shows no records in it. |
| FolderExamples.SafetySystemsRecord | blocks/my-requests/my-requests.js:254-259 | In `folderAsName` mode the shipped folder gives four records. The third is `RH-SAFETY-SYSTEMS`, the upper-cased name of the "safety-systems" folder. |
| FolderExamples.SafetySystemsTitleAndStatus | blocks/my-requests/my-requests.js:254-259 | That third record carries the folder title "Safety System Integration Consultation" and the status pending. |
| FolderExamples.FileNameTitles | blocks/my-requests/my-requests.js:358-363 | In `fileName` mode the shipped folder gives six records. The first two are titled "design-specification" and "requirements". |
| FolderExamples.UnknownPathFallsBack | blocks/my-requests/my-requests.js:176-183 | A path the folder data does not know loads the two sample records. |
| RequestHelp.Initial | blocks/request-help/request-help.js:10-19 | The form starts on step 1 with nothing selected and no step-3 data. |
| RequestHelp.FirstNamed | blocks/request-help/request-help.js:296 | `querySelector` by name finds a control with that name and no earlier control has it. It finds nothing exactly when no control has the name. |
| RequestHelp.CanProceed | blocks/request-help/request-help.js:286-304 | Step 1 may proceed exactly when a type is chosen, and step 2 exactly when a service is chosen. Step 3 always may, because its list of required fields is empty, and step 4 always may. No other step ever may. |
| RequestHelp.SelectHelpType | blocks/request-help/request-help.js:214-221 | Clicking a step-1 card records the type and changes nothing else. |
| RequestHelp.SelectService | blocks/request-help/request-help.js:224-231 | Clicking a step-2 option records the service and changes nothing else. |
| RequestHelp.PreviousStep | blocks/request-help/request-help.js:270-274 | Previous moves one step back with no gate and does nothing on step 1. The form data is untouched. |
| RequestHelp.NextStep | blocks/request-help/request-help.js:276-284 | Next does nothing while the gate fails. Once it passes, steps 1 to 3 move exactly one step on and step 4 submits. |
| RequestHelp.SubmitForm | blocks/request-help/request-help.js:338-353 | Submitting replaces the step-3 data with the collected controls, shows the reference number, lands on step 4 and keeps the step-1 and step-2 choices. |
| RequestHelp.CollectStep3 | blocks/request-help/request-help.js:324-330 | The collected step-3 data has exactly the controls' names as keys. |
| RequestHelp.LaterControlWins | blocks/request-help/request-help.js:324-330 | When several controls share a name, the last one's value is kept. |
| RequestHelp.ApplyPreservesValid | blocks/request-help/request-help.js:270-284 | Every interaction keeps the step within 1..4. Step-3 data stays absent until a submission. |
| RequestHelp.ReachableFormsValid | blocks/request-help/request-help.js:10-19 | Every form reachable from the constructor by any sequence of interactions has a step within 1..4. |
| RequestHelp.NextNeedsType | blocks/request-help/request-help.js:288-289 | Next on step 1 does nothing until a type is picked. |
| RequestHelp.StepThreeShowsSubmissionUnsubmitted | blocks/request-help/request-help.js:276-284 | From a valid step-3 form with no reference, Next shows the step-4 panel while the reference stays absent and the step-3 data stays empty. |
| RequestHelp.PickThenNext | blocks/request-help/request-help.js:276-284 | Once a type is picked, Next on step 1 moves to step 2. |
| RequestHelp.SubmitTwice | blocks/request-help/request-help.js:276-284 | Next on step 4 submits again. The form stays on step 4 with the newest reference number and step-3 data. |
| RequestHelp.StepIndicator | blocks/request-help/request-help.js:244-255 | Indicator entry n is active exactly when n is the current step, completed exactly when it is earlier, and plain otherwise. |
| RequestHelp.UpdateNavigation | blocks/request-help/request-help.js:306-322 | Previous is visible exactly after step 1. The label is "Submit" exactly on step 4 and "Next" on every other step. Next is disabled exactly when the gate fails, which on steps 1 and 2 means the choice is missing. |
| RequestHelp.View | blocks/request-help/request-help.js:257-268 | `showStep` shows the panel of the current step and refreshes the step indicator and the navigation buttons for that step. Next is never disabled on steps 3 and 4. |

## Left out

- DOM construction, markup, CSS classes and `innerHTML`: they are presentation. The model keeps only the visible state they encode.
- The inline `onclick="this.goToPage(...)"` handlers of the pagination buttons: in an inline handler `this` is the button element, not the block, so they never reach `goToPage`. The model treats a page change as a direct `goToPage` call.
- `setTimeout` delays, `console` logging, `confirm`, `shareItem` and `deleteItem`: they are side effects with no effect on the listing state.
- `getConfig`'s attribute parsing: the configuration comes in already parsed. `parseInt(...) || 10` turns 0 and unparsable values into 10 but lets negative values through; `MyRequests.Construct` and `MyRequests.Render` require a positive `itemsPerPage`, because the page arithmetic divides by it.
- Projection.LoadItemsFromFolder, RequestHelp.CollectStep3: JavaScript objects are modelled as maps of their own keys, with no inherited prototype properties. For `loadItemsFromFolder` this means a configured path such as `toString` or `__proto__` finds an inherited, truthy value (`my-requests.js` lines 309-312) and `Object.entries` at line 317 then throws a TypeError rather than "Folder not found"; `loadItems` catches both alike and falls back to the sample set, so only the logged error differs. For `collectStep3Data` a control named `__proto__` creates no key (`request-help.js` line 327), whereas `CollectStep3` records every control's name as a key.
- `includeSubfolders` and `maxDepth`: the code reads them but never uses them.
- `getIconForType`, `getStatusBadge`, `renderItem`, `renderActions` and `formatDate`: they are presentation helpers.
- `Date` parsing of ISO strings and the host's local calendar: dates are epoch milliseconds, and the bucket boundaries are a `Clock` parameter.
- Filtering.FilterItems: one `Clock` serves the whole filtering pass. `applyFilters` reads `new Date()` afresh for every record (`my-requests.js` line 489), so a pass that runs across midnight can put records on either side of the day boundary; the model does not cover that.
- Projection.ProjectChildren: the sub-folders come in `Object.entries` order (`my-requests.js` line 317). JavaScript lists integer-like keys first in ascending order, then the other keys in insertion order, and the keys are unique. The model takes the sub-folders as any sequence and does not derive that order or that uniqueness.
- `generateReferenceNumber`: it reads the clock and `Math.random`. `SubmitForm` and `NextStep` take the reference number as an input.
- Text.ToLower: maps only ASCII letters. JavaScript's `toLowerCase`/`toUpperCase` cover all of Unicode.
- RequestHelp.IsSpace: covers the ASCII and Latin-1 white space and U+FEFF, not every Unicode space that `trim` removes.
- Text.LexLess: compares code points, not UTF-16 code units. The two orders differ only between supplementary-plane characters and U+E000–U+FFFF.
- Sorting.SortItems: the comparator of `sortItems` never returns 0, so the host sort fixes the order of records with equal keys. The model uses a stable insertion sort and promises only a permutation in key order. `DescendingReversesAscending` covers the case without ties.
- The step-3 gate of `canProceed` runs over an empty `requiredFields` list, so the `Filled` check on named controls is modelled but never consulted.
- The Next button is enabled in the initial markup before `updateNavigation` first runs; the model derives the navigation from the state instead.
- The wizard's confirmation text and the share and download links of the listing are left out.
