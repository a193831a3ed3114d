# Engagement progress of a consultancy dashboard, in Dafny

The dashboard tracks each client's AI-adoption engagement as numbered
phases. Every phase has activities and deliverables. This project models
the part of the dashboard that works with those records:

- **Phase progress.** A phase's percentage and status are derived from its
  activities and deliverables; items marked "not included" are ignored.
- **Strategy page updates.** The status-change handlers replace one
  activity, deliverable, use case or strategy document by id, and stamp a
  completion or delivery date.
- **Per-client figures.** The page shows how many deliverables and
  activities there are and how many are done, the investment total parsed
  from labels such as "£12,000" and "TBD", and the overall progress.
- **The shared store.** It holds clients, phases and uploaded documents.
  The document list is written back to one browser-storage record after
  every change; the model takes that write to succeed.
- **The "New Client" intake dialog.** It checks the step-one details,
  handles the template and service toggles, and generates phases numbered
  1..n.
- **The document upload dialog.** It enforces the 5 MB size limit, shows
  file sizes, and builds the document record.
- **Sidebar highlighting.** A path prefix rule decides which navigation
  item is shown as current.

Modules, one per source file, plus shared ones:

| module | file | models |
|---|---|---|
| `Types` | types.dfy | the records and status enumerations of `frontend/lib/types.ts` |
| `Text` | text.dfy | strings: decimal rendering, `trim`, `includes`, `startsWith`, `parseFloat` of a label, thousands grouping |
| `PhaseProgress` | progress.dfy | `computePhaseProgress` |
| `Strategy` | strategy.dfy | the strategy page: status updates, aggregates, deliverable list, page state (`class StrategyBoard`) |
| `ClientContext` | client_context.dfy | the client provider (`class ClientStore`), loading and saving documents |
| `AddClient` | add_client.dfy | the intake dialog (`class IntakeForm`), phase generation |
| `DocumentUpload` | document_upload.dfy | the upload dialog (`class UploadModal`), file-size display |
| `Sidebar` | sidebar.dfy | the navigation highlight |
| `Fixtures` | fixtures.dfy | seed phases of `frontend/lib/mock-data.ts`, and what they compute to |

How the source's numbers are modelled:

- `Math.round(done / total * 100)` becomes the integer round-half-up of
  the exact ratio, `(200 * done + total) / (2 * total)`. The page's
  floating-point result can differ at exact halves (see "## Left out").
- `toFixed(1)` becomes the nearest tenth, with ties going up.
- `toLocaleString()` becomes comma grouping in threes.
- `parseFloat` of a label becomes the value of its leading digits, taken
  after "£", "€" and "," have been removed and leading white space has
  been skipped.

## Model

| member | source | states |
|---|---|---|
| PhaseProgress.ComputePhaseProgress | frontend/app/strategy/page.tsx:119-137 | progress is at most 100; the status is "completed" exactly when progress is 100; no status other than completed, in progress or not started is produced |
| PhaseProgress.IncludedActivities | frontend/app/strategy/page.tsx:120 | no longer than the input, and it holds exactly the activities whose status is not "not included" |
| PhaseProgress.IncludedDeliverables | frontend/app/strategy/page.tsx:121 | no longer than the input, and it holds exactly the deliverables whose status is not "not included" |
| PhaseProgress.CompletedCount | frontend/app/strategy/page.tsx:126 | at most the number of activities, and 0 exactly when none of them is completed |
| PhaseProgress.DeliveredCount | frontend/app/strategy/page.tsx:127 | at most the number of deliverables, and 0 exactly when none of them is delivered |
| PhaseProgress.ProgressOfIncluded | frontend/app/strategy/page.tsx:122-136 | on the included items, progress is at most 100, the status is "completed" exactly when progress is 100, and only completed, in progress or not started is produced |
| PhaseProgress.RoundedPercent | frontend/app/strategy/page.tsx:128 | a done count no larger than the total rounds to a percentage of at most 100 |
| PhaseProgress.RoundedPercentNearest | frontend/app/strategy/page.tsx:128 | the rounded percentage is the integer nearest to 100·done/total, halves going up |
| PhaseProgress.RoundedPercentAtLeast | frontend/app/strategy/page.tsx:128 | the rounded percentage reaches k exactly when 2·total·k ≤ 200·done + total |
| PhaseProgress.RoundedPercentIs | frontend/app/strategy/page.tsx:128 | any p inside the rounding bracket is the rounded percentage |
| PhaseProgress.CompletedIff | frontend/app/strategy/page.tsx:122-130 | a phase is completed exactly when it has no included item or 200·done ≥ 199·total |
| PhaseProgress.NoIncludedActivities | frontend/app/strategy/page.tsx:120 | when every activity is "not included", none is left after filtering |
| PhaseProgress.NoIncludedDeliverables | frontend/app/strategy/page.tsx:121 | when every deliverable is "not included", none is left after filtering |
| PhaseProgress.EmptyPhaseIsComplete | frontend/app/strategy/page.tsx:122-123 | a phase whose items are all "not included" (or that has none) is exactly 100% and completed |
| PhaseProgress.ProgressExtremes | frontend/app/strategy/page.tsx:122-130 | all included items done gives exactly (100, completed); none done out of a positive total gives 0% |
| PhaseProgress.RoundingAndCompletion | frontend/app/strategy/page.tsx:128-130 | below 200 included items, 100% means all are done; from 200 items on, one item short of the total already rounds to 100% |
| PhaseProgress.NotStartedIff | frontend/app/strategy/page.tsx:131-136 | "not started" exactly when progress is below 100, nothing is done and no included activity is in progress and no included deliverable is in progress or in review |
| PhaseProgress.InProgressIff | frontend/app/strategy/page.tsx:131-135 | "in progress" exactly when progress is below 100 and something is done or under way |
| PhaseProgress.IncludedActivitiesIdempotent | frontend/app/strategy/page.tsx:120 | filtering out excluded activities a second time removes nothing more |
| PhaseProgress.IncludedDeliverablesIdempotent | frontend/app/strategy/page.tsx:121 | filtering out excluded deliverables a second time removes nothing more |
| PhaseProgress.ExcludedItemsIgnored | frontend/app/strategy/page.tsx:120-127 | a phase computes to the same result as the phase with its excluded items removed |
| PhaseProgress.IncludedActivitiesAppend | frontend/app/strategy/page.tsx:120 | filtering a concatenation filters each part, keeping order |
| PhaseProgress.IncludedDeliverablesAppend | frontend/app/strategy/page.tsx:121 | filtering a concatenation filters each part, keeping order |
| PhaseProgress.AddingExcludedActivityChangesNothing | frontend/app/strategy/page.tsx:120-127 | adding a "not included" activity leaves progress and status unchanged |
| PhaseProgress.AddingExcludedDeliverableChangesNothing | frontend/app/strategy/page.tsx:120-127 | adding a "not included" deliverable leaves progress and status unchanged |
| Strategy.StampActivity | frontend/app/strategy/page.tsx:224 | the activity gets the new status; its completion date becomes today on "completed" and is kept otherwise; no other field changes |
| Strategy.StampDeliverable | frontend/app/strategy/page.tsx:232 | the deliverable gets the new status; its delivery date becomes today on "delivered" and is kept otherwise; no other field changes |
| Strategy.WithActivityStamped | frontend/app/strategy/page.tsx:224 | same length; position by position, the activities with the id are stamped and every other one is kept |
| Strategy.WithDeliverableStamped | frontend/app/strategy/page.tsx:232 | same length; position by position, the deliverables with the id are stamped and every other one is kept |
| Strategy.WithActivityStatus | frontend/app/strategy/page.tsx:221-227 | same length; only phases with the phase id change, and in them only their activity list, updated by activity id |
| Strategy.WithDeliverableStatus | frontend/app/strategy/page.tsx:229-235 | same length; only phases with the phase id change, and in them only their deliverable list, updated by deliverable id |
| Strategy.WithUseCaseStatus | frontend/app/strategy/page.tsx:237-241 | same length; use cases with the id get the new status and nothing else changes |
| Strategy.WithDocumentStatus | frontend/app/strategy/page.tsx:243-247 | same length; strategy documents with the id get the new status and nothing else changes |
| Strategy.ActivityUpdateWithoutMatchIsNoOp | frontend/app/strategy/page.tsx:221-227 | when no phase with the phase id holds an activity with the activity id, the collection is unchanged |
| Strategy.DeliverableUpdateWithoutMatchIsNoOp | frontend/app/strategy/page.tsx:229-235 | when no phase with the phase id holds a deliverable with the deliverable id, the collection is unchanged |
| Strategy.ActivityUpdateIdempotent | frontend/app/strategy/page.tsx:221-227 | applying the same activity status change twice equals applying it once |
| Strategy.DeliverableUpdateIdempotent | frontend/app/strategy/page.tsx:229-235 | applying the same deliverable status change twice equals applying it once |
| Strategy.ClientPhases | frontend/app/strategy/page.tsx:206-208 | exactly the phases of the selected client |
| Strategy.ClientPhasesAppend | frontend/app/strategy/page.tsx:206-208 | the selected client's phases keep store order: the phases of a concatenation are the phases of each part, in turn |
| Strategy.ClientPhasesSingle | frontend/app/strategy/page.tsx:206-208 | one phase is kept exactly when it belongs to the client |
| Strategy.PhaseComputed | frontend/app/strategy/page.tsx:250-254 | the id-to-progress map has at most one entry per phase, and every value is at most 100 |
| Strategy.MapSet | frontend/app/strategy/page.tsx:252 | `Map.set`: an existing key keeps its place and the size; a new key is appended at the end; every entry is the new one or the old one at its place |
| Strategy.MapSetStores | frontend/app/strategy/page.tsx:252 | after `Map.set` the entry (key, value) is present, whether the key was new or not, and every entry with another key is unchanged where it was |
| Strategy.MapSetHasEntry | frontend/app/strategy/page.tsx:252 | after `Map.set` the entry (key, value) is present |
| Strategy.MapSetKeepsOthers | frontend/app/strategy/page.tsx:252 | `Map.set` leaves every entry with another key unchanged in its place |
| Strategy.SumProgressBound | frontend/app/strategy/page.tsx:275 | the sum of n progress values is at most 100·n |
| Strategy.RoundedMean | frontend/app/strategy/page.tsx:275 | the result is the integer nearest to sum/n, halves going up |
| Strategy.OverallProgress | frontend/app/strategy/page.tsx:274-276 | the overall progress is at most 100 |
| Strategy.ComputeStats | frontend/app/strategy/page.tsx:257-286 | delivered ≤ total deliverables, completed ≤ total activities, overall progress ≤ 100, and the figure reads "TBD" exactly when the summed total is 0 |
| Strategy.FormatInvestmentCases | frontend/app/strategy/page.tsx:263-272 | "TBD" exactly when the sum is 0, even when a label says "TBD"; otherwise the figure starts with "£" and parses back to the sum, and it ends in "+" exactly when some label mentions "TBD" |
| Strategy.GroupedLastIsDigit | frontend/app/strategy/page.tsx:271 | a grouped number ends in a digit, so a trailing "+" can only come from a TBD label |
| Strategy.InvestmentTotalAppend | frontend/app/strategy/page.tsx:263-268 | a label that mentions "TBD" adds nothing to the total; any other label adds its parsed amount |
| Strategy.CompletedCountAppend | frontend/app/strategy/page.tsx:261 | completed activities are counted additively across lists |
| Strategy.DeliveredCountAppend | frontend/app/strategy/page.tsx:259 | delivered deliverables are counted additively across lists |
| Strategy.StatsCountsArePhaseSums | frontend/app/strategy/page.tsx:258-261 | each client-wide count (included deliverables, delivered ones, included activities, completed ones) is the sum of that count over the client's phases; together they are the sums of the per-phase totals and done counts that each phase's progress is computed from |
| Strategy.PhaseComputedKeys | frontend/app/strategy/page.tsx:250-254 | every key of the progress map is the id of one of the phases |
| Strategy.PhaseComputedSum | frontend/app/strategy/page.tsx:250-254 | with distinct ids, the map has one entry per phase and its values add up to the sum of the phase progresses |
| Strategy.OverallProgressIsMean | frontend/app/strategy/page.tsx:250-276 | with distinct ids, the overall progress is the rounded mean of the computed phase progresses |
| Strategy.PhaseRows | frontend/app/strategy/page.tsx:290 | each deliverable row carries its phase's title and number |
| Strategy.RowsMatchDeliverables | frontend/app/strategy/page.tsx:288-292 | the rows line up one for one with the flattened deliverables, "not included" ones too |
| Strategy.FilteredDeliverables | frontend/app/strategy/page.tsx:294-296 | "all" shows every row; a status filter shows exactly the rows with that status |
| Strategy.RowsWithStatus | frontend/app/strategy/page.tsx:296 | exactly the rows whose deliverable has the status |
| Strategy.RowsWithStatusAppend | frontend/app/strategy/page.tsx:296 | the filtered rows keep row order: filtering a concatenation filters each part, in turn |
| Strategy.RowsWithStatusSingle | frontend/app/strategy/page.tsx:296 | one row is kept exactly when its deliverable has the status |
| Strategy.FilteredDeliverablesAppend | frontend/app/strategy/page.tsx:294-296 | under either filter the shown rows keep row order, part by part |
| Strategy.StrategyBoard.constructor | frontend/app/strategy/page.tsx:179-194 | the first client is selected (or none when there is no client), the filter is "all", and the page's own use cases and documents are set up |
| Strategy.StrategyBoard.SelectClient | frontend/app/strategy/page.tsx:187-190 | the given client becomes the selection; the filter goes back to "all" exactly when the selection changes and is kept when the selected client is chosen again |
| Strategy.StrategyBoard.SetDeliverableFilter | frontend/app/strategy/page.tsx:184 | only the filter changes |
| Strategy.StrategyBoard.HandleAddClient | frontend/app/strategy/page.tsx:198-203 | the client and its phases are appended to the store, the documents and storage stay unchanged, and the new client is selected, the filter going back to "all" when that changes the selection |
| Strategy.StrategyBoard.UpdateActivityStatus | frontend/app/strategy/page.tsx:221-227 | the store's phases become the activity-updated collection; clients, documents and storage stay as they were |
| Strategy.StrategyBoard.UpdateDeliverableStatus | frontend/app/strategy/page.tsx:229-235 | the store's phases become the deliverable-updated collection; clients, documents and storage stay as they were |
| Strategy.StrategyBoard.UpdateUseCaseStatus | frontend/app/strategy/page.tsx:237-241 | only the page's use-case list changes, by id |
| Strategy.StrategyBoard.UpdateDocumentStatus | frontend/app/strategy/page.tsx:243-247 | only the page's strategy-document list changes, by id |
| ClientContext.LoadDocuments | frontend/lib/client-context.tsx:9-17 | outside a browser, or with a missing, empty or unparseable record, the result is the empty list; loading never fails; a non-empty result is the stored collection |
| ClientContext.SaveDocuments | frontend/lib/client-context.tsx:37-39 | the serialized collection is stored under the single key "qb-client-documents" and every other key is untouched |
| ClientContext.SaveThenLoad | frontend/lib/client-context.tsx:9-39 | a load after saves returns the collection saved last |
| ClientContext.WithoutDocument | frontend/lib/client-context.tsx:51 | exactly the records whose id differs from the given one |
| ClientContext.DocumentsOf | frontend/lib/client-context.tsx:55 | exactly the records of the client |
| ClientContext.RemoveAbsentIsNoOp | frontend/lib/client-context.tsx:50-52 | removing an id that no record carries changes nothing |
| ClientContext.RemoveKeepsOrder | frontend/lib/client-context.tsx:50-52 | removal commutes with concatenation, so the remaining records keep their relative order |
| ClientContext.AddThenRemove | frontend/lib/client-context.tsx:46-52 | adding a document with a fresh id and then removing that id restores the collection |
| ClientContext.ClientDocumentsKeepOrder | frontend/lib/client-context.tsx:54-56 | a client's documents come out in collection order |
| ClientContext.NewestDocumentFirst | frontend/lib/client-context.tsx:46-56 | the document added last comes first among its client's documents |
| ClientContext.ClientStore.constructor | frontend/lib/client-context.tsx:32-39 | the seed clients and phases, the loaded documents, and storage written through |
| ClientContext.ClientStore.AddClient | frontend/lib/client-context.tsx:41-44 | the client is appended and the phases are appended in order; existing entries, documents and storage stay unchanged |
| ClientContext.ClientStore.SetAllPhases | frontend/lib/client-context.tsx:60 | only the phase collection is replaced |
| ClientContext.ClientStore.AddDocument | frontend/lib/client-context.tsx:37-48 | the documents become the new one followed by the old ones, and storage holds the new collection |
| ClientContext.ClientStore.RemoveDocument | frontend/lib/client-context.tsx:37-52 | the documents become those without the id, and storage holds the new collection |
| ClientContext.ClientStore.GetClientDocuments | frontend/lib/client-context.tsx:54-56 | exactly the records of the client, in collection order; the store is not changed |
| ClientContext.ClientStore.Reload | frontend/lib/client-context.tsx:9-39 | loading from storage returns the current collection |
| AddClient.FindTemplate | frontend/components/AddClientModal.tsx:63 | the first template with that key, or none exactly when no template has the key |
| AddClient.Step1ValidIff | frontend/components/AddClientModal.tsx:51 | step one is valid exactly when none of name, industry, contact name, role and email is blank |
| AddClient.CleanGoals | frontend/components/AddClientModal.tsx:99 | no more goals than were entered, and none is empty |
| AddClient.CleanGoalsMembers | frontend/components/AddClientModal.tsx:99 | the kept goals are exactly the non-empty trimmed inputs |
| AddClient.CleanGoalsAppend | frontend/components/AddClientModal.tsx:99 | the kept goals keep input order: cleaning a concatenation cleans each part, in turn, so duplicates survive |
| AddClient.CleanGoalsSingle | frontend/components/AddClientModal.tsx:99 | one goal is kept, trimmed, exactly when it is not blank |
| AddClient.CleanGoalsIdempotent | frontend/components/AddClientModal.tsx:99 | cleaning the cleaned goals changes nothing |
| AddClient.TrimOfTrimmed | frontend/components/AddClientModal.tsx:99 | a trimmed string trims to itself |
| AddClient.NewClient | frontend/components/AddClientModal.tsx:84-101 | exactly one contact, flagged primary; the goals are the cleaned goals; with step one valid, the stored name, industry and contact name are non-empty |
| AddClient.SetFlag | frontend/components/AddClientModal.tsx:76 | the named flag gets the value and no other flag changes; an existing name keeps its place and a new one is appended |
| AddClient.AllOn | frontend/components/AddClientModal.tsx:64-67 | exactly the template's services are on |
| AddClient.ActiveServices | frontend/components/AddClientModal.tsx:109-111 | empty exactly when no flag is on |
| AddClient.ActiveServicesAppend | frontend/components/AddClientModal.tsx:109-111 | the active services keep the record's insertion order |
| AddClient.AllOnIsAllActive | frontend/components/AddClientModal.tsx:109-111 | a freshly selected template's active services are its services, in order |
| AddClient.TemplateServicesDistinct | frontend/lib/mock-data.ts:547-592 | no template lists a service twice |
| AddClient.NewActivities | frontend/components/AddClientModal.tsx:125-130 | one activity per service, titled with the service, "not started", with id `a-<client>-<n>-<i+1>` |
| AddClient.NewPhase | frontend/components/AddClientModal.tsx:115-133 | key services and activity titles are the active services position by position, and every activity is "not started" |
| AddClient.GeneratingTemplates | frontend/components/AddClientModal.tsx:106-113 | exactly the templates that are selected and have an active service, in template order |
| AddClient.GeneratingTemplatesAppend | frontend/components/AddClientModal.tsx:106-113 | the generating templates keep template order: a concatenation contributes each part, in turn |
| AddClient.GeneratingTemplatesSingle | frontend/components/AddClientModal.tsx:106-113 | one template is kept exactly when it is selected and has an active service |
| AddClient.NoSelectionGeneratesNothing | frontend/components/AddClientModal.tsx:80-113 | when the "Create" button's test fails (no phase flag is on), no template generates and the submit loop produces no phase |
| AddClient.GeneratedPhasesShape | frontend/components/AddClientModal.tsx:103-134 | the j-th generated phase comes from the j-th generating template, is numbered j+1 and has id `ep-<client>-<j+1>`, so numbers have no gaps even when a selected template is skipped |
| AddClient.GeneratedPhaseDefaults | frontend/components/AddClientModal.tsx:119-133 | every generated phase has timeline and investment "TBD", status not started, progress 0, no deliverables, and key services equal to its activity titles, all not started |
| AddClient.GeneratedPhaseComputesToZero | frontend/components/AddClientModal.tsx:119-133 | a generated phase computes to 0% and not started, in agreement with its stored values |
| AddClient.AllIncluded | frontend/components/AddClientModal.tsx:129 | not-started activities are all included, none is completed and none is in progress |
| AddClient.BuildPhases | frontend/components/AddClientModal.tsx:103-135 | the loop produces exactly the phases specified by `Generated` |
| AddClient.IntakeForm.constructor | frontend/components/AddClientModal.tsx:18-31 | the form starts blank on step one |
| AddClient.IntakeForm.Reset | frontend/components/AddClientModal.tsx:33-44 | every field returns to its initial value |
| AddClient.IntakeForm.EditDetails | frontend/components/AddClientModal.tsx:260-281 | editing step one changes only the details |
| AddClient.IntakeForm.SetStep | frontend/components/AddClientModal.tsx:374 | only the step changes |
| AddClient.IntakeForm.Continue | frontend/components/AddClientModal.tsx:377-379 | the form moves to step two only when step one is valid |
| AddClient.IntakeForm.Back | frontend/components/AddClientModal.tsx:374 | the form returns to step one and nothing else changes |
| AddClient.IntakeForm.TogglePhase | frontend/components/AddClientModal.tsx:53-71 | the template's flag flips; turning it on sets every service of the template on; turning it off deletes the template's service record |
| AddClient.IntakeForm.ToggleService | frontend/components/AddClientModal.tsx:73-78 | only the one service flag of that template flips |
| AddClient.IntakeForm.Submit | frontend/components/AddClientModal.tsx:82-139 | the client comes from the details, the phases are the generated ones for the client's id, and the form is reset |
| AddClient.TogglePhaseFlagsOnly | frontend/components/AddClientModal.tsx:55 | toggling a template flips its own flag and no other template's |
| AddClient.ToggleServiceLocal | frontend/components/AddClientModal.tsx:73-78 | toggling a service changes that one flag and no other, in any template |
| AddClient.TurnedOnTemplateGenerates | frontend/components/AddClientModal.tsx:62-113 | right after a template is turned on, submitting generates it with all of its services |
| DocumentUpload.RoundedTenths | frontend/components/DocumentUploadModal.tsx:27-28 | the number of tenths nearest to num/den, ties going up |
| DocumentUpload.OneDecimal | frontend/components/DocumentUploadModal.tsx:27-28 | digits, a point, and one digit |
| DocumentUpload.OneDecimalValue | frontend/components/DocumentUploadModal.tsx:27-28 | the one-decimal text reads back as the same number of tenths |
| DocumentUpload.FormatFileSizeUnit | frontend/components/DocumentUploadModal.tsx:25-29 | "B" exactly below 1024 bytes, "KB" exactly from 1024 up to 1048576, "MB" exactly from there on |
| DocumentUpload.FormatFileSizeRounding | frontend/components/DocumentUploadModal.tsx:27-28 | the KB or MB figure is the size in that unit, rounded to tenths, and never below 1.0 |
| DocumentUpload.MimeTypeOrDefault | frontend/components/DocumentUploadModal.tsx:99 | the file's type when it has one, "application/octet-stream" otherwise; never empty |
| DocumentUpload.NewDocument | frontend/components/DocumentUploadModal.tsx:95-104 | the record carries the dialog's client and category and the file's name, size and data, with a non-empty type that is the file's own when it has one |
| DocumentUpload.UploadModal.constructor | frontend/components/DocumentUploadModal.tsx:32-36 | no file, category "reference", no highlight, no error, not uploading |
| DocumentUpload.UploadModal.Reset | frontend/components/DocumentUploadModal.tsx:39-50 | the dialog returns to its initial state |
| DocumentUpload.UploadModal.ValidateFile | frontend/components/DocumentUploadModal.tsx:52-59 | a file is accepted exactly when its size is at most 5·1024·1024 bytes, so exactly 5 MB passes; acceptance clears the error and refusal sets the size message |
| DocumentUpload.UploadModal.HandleFileSelect | frontend/components/DocumentUploadModal.tsx:61-65 | an accepted file becomes the selection with no error; a refused one leaves the selection as it was and sets the error; a selected file is never over the limit |
| DocumentUpload.UploadModal.HandleDrop | frontend/components/DocumentUploadModal.tsx:67-72 | the highlight ends and the first dropped file, if any, goes through file selection |
| DocumentUpload.UploadModal.HandleDragOver | frontend/components/DocumentUploadModal.tsx:74-77 | only the highlight changes, and it turns on |
| DocumentUpload.UploadModal.HandleDragLeave | frontend/components/DocumentUploadModal.tsx:79-81 | only the highlight changes, and it turns off |
| DocumentUpload.UploadModal.SetCategory | frontend/components/DocumentUploadModal.tsx:33 | only the category changes |
| DocumentUpload.UploadModal.HandleUpload | frontend/components/DocumentUploadModal.tsx:83-112 | without a file nothing happens; a failed read hands out nothing, sets the error and clears "uploading"; a successful read hands out the constructed document once and resets the dialog |
| DocumentUpload.UploadToStore | frontend/app/clients/page.tsx:49-52 | a successful upload puts exactly one document at the front of the store; otherwise the store's documents are unchanged; clients and phases stay as they were |
| Sidebar.RootActiveIff | frontend/components/layout/Sidebar.tsx:73 | the "/" item is active only on "/" |
| Sidebar.ActiveOnOwnHref | frontend/components/layout/Sidebar.tsx:73 | each item is active on its own href |
| Sidebar.ActiveOnPrefix | frontend/components/layout/Sidebar.tsx:73 | a non-root item is active on every path that starts with its href |
| Sidebar.PrefixIsNotSegmentAware | frontend/components/layout/Sidebar.tsx:73 | "/clients-x" highlights Clients, because the test is a plain string prefix |
| Sidebar.ActiveItemIsSection | frontend/components/layout/Sidebar.tsx:26-73 | an active item is the one named by the path's leading letters |
| Sidebar.AtMostOneActive | frontend/components/layout/Sidebar.tsx:26-73 | with this item table, no path makes two items active |
| Sidebar.SettingsExclusive | frontend/components/layout/Sidebar.tsx:73-110 | on "/settings", Settings is highlighted and no navigation item is |
| Text.NatToString | frontend/app/strategy/page.tsx:271 | a non-empty string of decimal digits with no leading zero |
| Text.NatToStringValue | frontend/app/strategy/page.tsx:271 | the decimal rendering reads back as the number |
| Text.NatToStringInjective | frontend/app/strategy/page.tsx:271 | different numbers render differently |
| Text.GroupedStrips | frontend/app/strategy/page.tsx:266-271 | removing the grouping commas gives back the digits |
| Text.Grouped | frontend/app/strategy/page.tsx:271 | the grouped rendering is at least as long as the digits; `GroupedStrips` states that only commas were added |
| Text.ParseFormatted | frontend/app/strategy/page.tsx:266-271 | a grouped amount after a currency prefix and white space, followed by a "+" or nothing, parses back to the amount |
| Text.ParseAmountSkipsSpace | frontend/app/strategy/page.tsx:266-267 | white space in front of a label does not change its amount |
| Text.TrimStartSkipsBlank | frontend/app/strategy/page.tsx:267 | leading white space is skipped whatever follows it |
| Text.StripCurrencyOfBlank | frontend/app/strategy/page.tsx:266 | white space survives the removal of currency signs and commas |
| Text.StripCurrencyConcat | frontend/app/strategy/page.tsx:266 | removing currency signs and commas works piece by piece |
| Text.StripCurrency | frontend/app/strategy/page.tsx:266 | no longer than the label, and no "£", "€" or "," is left in it |
| Text.LeadingDigits | frontend/app/strategy/page.tsx:267 | a prefix of the input made of digits only, followed by the end of the input or by a non-digit, so it is the longest such prefix |
| Text.TrimStart | frontend/app/strategy/page.tsx:267 | a suffix of the input, with everything before it white space, that does not itself start with white space |
| Text.LeadingDigitsOfDigits | frontend/app/strategy/page.tsx:267 | the leading digits of digits followed by a non-digit are those digits |
| Text.ContainsAt | frontend/app/strategy/page.tsx:264 | a substring at any position counts as contained |
| Text.ContainsFirstChar | frontend/app/strategy/page.tsx:264 | a contained non-empty string's first character occurs in the text |
| Text.TrimIsInnerSlice | frontend/components/AddClientModal.tsx:99 | the trimmed string is the input with only white space removed at both ends, and it neither starts nor ends with white space |
| Text.TrimEnd | frontend/components/AddClientModal.tsx:99 | a prefix of the input, with everything after it white space, that does not itself end with white space |
| Text.Trim | frontend/components/AddClientModal.tsx:99 | `trim` gives a string no longer than its input; the lemmas below state what it keeps |
| Text.TrimEmptyIffBlank | frontend/components/AddClientModal.tsx:51 | a string trims to nothing exactly when it is all white space |
| Text.TrimIdempotent | frontend/components/AddClientModal.tsx:99 | trimming twice equals trimming once |
| Fixtures.C3Phase1Progress | frontend/lib/mock-data.ts:407-429 | ep-c3-1 computes to 14% and in progress (1 of 7 included items done), though it stores 25% |
| Fixtures.C1Phase3Progress | frontend/lib/mock-data.ts:291-313 | ep-c1-3 computes to 0% and in progress |
| Fixtures.C1Investment | frontend/lib/mock-data.ts:252-321 | client c1's four labels sum to 36000 with no TBD and are shown as "£36,000" |
| Fixtures.C3Investment | frontend/lib/mock-data.ts:414-437 | client c3's "£15,000" and "TBD" labels are shown as "£15,000+" |
| Fixtures.FourLabelsSum | frontend/lib/mock-data.ts:252-321 | the four c1 labels add up to 36000 and none mentions TBD |
| Fixtures.MixedInvestment | frontend/app/strategy/page.tsx:263-272 | "£12,000", "£8,000" and "TBD" are shown as "£20,000+" |
| Fixtures.ExcludedActivityExample | frontend/app/strategy/page.tsx:120-130 | one completed and one "not included" activity give 100% and completed |
| Fixtures.MixedPhaseExample | frontend/app/strategy/page.tsx:120-135 | 2 of 5 included items done gives 40% and in progress |
| Fixtures.Thousands | frontend/app/strategy/page.tsx:271 | k thousand for 1 ≤ k ≤ 99 is grouped as k followed by ",000" |
| Fixtures.SpacedLabel | frontend/app/strategy/page.tsx:266-267 | "£ 5,000" is worth 5000 |

## Left out

- JSX rendering, animation, the status drop-down's open and close handling, tab and view switches, and the expanded-phase and selected-document UI state are not modelled; they hold no behaviour that can be stated.
- Browser storage and JSON are an abstract map from keys to stored values. A stored value is a serialized collection, text that does not parse, or the empty string.
- ClientContext.SaveDocuments / ClientContext.ClientStore.AddDocument / DocumentUpload.UploadToStore: storage writes are taken to succeed. The page's `localStorage.setItem` has no `try`/`catch` and throws once the serialized list passes the browser's storage quota, commonly about 5 MB. The list holds each file's data URL, about 4/3 of the file's size, and the dialog accepts files up to 5 MB, so one file of about 4 MB, or a few smaller ones, is enough. The page then keeps the last list written, and the new document is gone after a reload. `ClientStore.Valid`, `ClientStore.Reload` and `SaveThenLoad` hold only while writes succeed.
- LoadDocuments: valid JSON of another shape (such as `null` or a number) is returned by the source as it stands. The model's stored values cannot express that case, and nothing is claimed about it.
- Reading a file is a given outcome, done or failed. The "uploading" flag is visible only between the two steps of that read, and the model runs them in one call, so no interleaving with other events is modelled.
- The clock and the random id suffix are parameters: `now`, `today`, `uploadedAt`, `clientNow`, `contactNow` and `randomSuffix`. Ids are not proved unique; the client and contact ids both come from the same clock.
- Floating point is not modelled; the integer formulas above are used instead. For the overall mean and for file sizes they give the page's result: the mean's division is correctly rounded and never lands on a half it should not, and a byte count divided by 1024 or 1048576 is exact in binary.
- PhaseProgress.RoundedPercent: rounds the exact ratio, so where `done / total * 100` is an exact half it can be one above the page. The page computes the quotient in double precision first, and the result can fall just below the half. Examples are 23 of 40 (57.49999999999999 on the page, so 57 there and 58 here) and 29 of 200 (14 there, 15 here). There are 16 such pairs with a total of at most 400. The model is never below the page, and no other pair differs.
- `toLocaleString` uses comma grouping in threes; other locales are not modelled.
- Text.ParseAmount: skips leading white space and then reads decimal digits only. A sign, a decimal point, an exponent (`"£5e3"` is 5000 to `parseFloat`), and `Infinity` are not modelled. A label without leading digits gives `NaN` on the page, which `|| 0` turns into 0, as here. The labels in the seed data contain none of these.
- In handleSubmit, the "Create" button is disabled without a selected phase. handleSubmit does not check this itself, so `AddClient.IntakeForm.Submit` has no such precondition and, with nothing usable selected, returns no phases. `AddClient.HasSelectedPhases` models the button's test, and `AddClient.NoSelectionGeneratesNothing` shows that the button only blocks a submit that would produce no phases.
- AddClient.IntakeForm.TogglePhase: requires a known template key when the flag turns on. The source asserts the template exists at that point and would fail without one.
- Strategy.OverallProgressIsMean: stated only for phases with distinct ids. With a repeated id, the page's map keeps one entry per id but still divides by the number of phases; `Strategy.OverallProgress` models that computation as written.
- Only the clients page's `handleUploadDocument` is modelled there (`UploadToStore`). That page's own copy of the file-size formatter and its toast are not modelled.
- Toast notifications, the survey and workshop pages, the sidebar collapse state and the top bar are not part of this model.
- Only the seed phases the listed properties use (client c1, and client c3) are transcribed, and only their ids, statuses and investment labels. Titles, descriptions and dates are left empty.
