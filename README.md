# Pricing Request front end: a verified model

This project models the logic under the markup of a React front end for
Pricing Requests (PRs). Sales executives draft PRs and send them on to pricing
analysts. Analysts take a PR, then approve it, reject it or ask for action.
The model covers these parts:

- **Mapper** (`Mapper`): the pair that turns a page-side PR into the back end's
  snake_case record (`toAPI`) and back (`fromAPI`). `fromAPI` fills every
  absent field with a default, following JavaScript's `||` and falsy values.
- **In-memory store** (`MockStore`): a class over a sequence of stored PRs. It
  supports list, find, create, update, delete, submit, approve, reject and
  add-comment, and gives the same "PR not found" errors as the store.
- **Status colours, labels, filters, counts and button gating** on the three
  pages (`PrDetailsPage`, `SalesDashboard`, `AnalystDashboard`).
- **Optimistic cache edits** on those pages. Each takes a snapshot, edits the
  cache, restores the snapshot if the remote call fails, and then invalidates.
  The cache is the `QueryCache.QueryClient` class: an exact key→data map plus
  the set of keys that were invalidated.
- **Form validators** (`Validation`): the zod schemas. Each reports every
  failing check, in declaration order. Each message is a `Message` value and
  `Validation.Text` gives its exact wording. The hand-written check sequences of
  the two sign-in pages are modelled too (`AuthPage`, `SignupPage`).
- **Endpoint paths** (`Endpoints`).
- **The session** (`AuthContext`): the role-code mapping, plus `user`,
  `isLoading` and the stored token through start-up, login, signup and logout.

JavaScript values are `Js.Value`. Falsy values are `undefined`, `null`,
`false`, `0` and `""`. An exception is the `Throws` case of `Js.Result`. This
covers `toLowerCase` on a non-string (a `TypeError`) and `toISOString` on an
invalid date (a `RangeError`).

The pages use two PR shapes:
- `Mapper.Pr` is the shape `fromAPI` returns. It has `salesStatus`,
  `analystStatus`, `assignedTo` and `finalApprovalStatus`.
- `MockStore.StoredPr` is the `PR` interface of `types/index.ts`. It has
  `status` and `created_by`.

`PRStatus` as declared has no `ACTIVE_STATUS` member, yet six places read
`PRStatus.ACTIVE_STATUS.toLowerCase()` (PRDetailsPage.tsx:269 and 459,
AnalystDashboard.tsx:67, 91 and 352, SalesDashboard.tsx:70), and the analyst
statistics pass `PRStatus.ACTIVE_STATUS` itself to the status filter
(AnalystDashboard.tsx:217). Every function that reads it takes
the constant as a parameter (`Types.ActiveConst`):
- `AsWritten` is the missing key. Reading it throws.
- `WithActiveStatus` is `"ACTIVE_STATUS"`.

Lemmas state the behaviour under both. Three remote-dependent inputs are
parameters rather than modelled:
- The outcome of every remote call.
- The current time and fresh ids.
- How a date string is parsed when it is not of the form `YYYY-MM-DD`, or has that form and in-bounds fields but names no real day (`2024-02-30`). This is the model's choice: ECMAScript fixes some of these strings too (see `Js.NewDate` under "## Left out").

## Model

| member | source | states |
|---|---|---|
| Mapper.ItemsToWire | my-app/src/services/api.ts:258-266 | one wire item per item, same order, each of the seven fields copied under its snake_case name |
| Mapper.ShipmentDateToWire | my-app/src/services/api.ts:240-243 | a Date becomes the part of its ISO string before `T`; an invalid Date throws a RangeError; any other value passes through unchanged |
| Mapper.ToApi | my-app/src/services/api.ts:239-267 | succeeds exactly when the shipment date is not an invalid Date, and the result carries every field under its wire name |
| Js.NewDate | my-app/src/services/api.ts:280-282 | `new Date(x)` is always a Date or an invalid Date. A Date is copied, and an invalid Date or `undefined` gives an invalid Date. A `YYYY-MM-DD` string naming a real day is midnight UTC of that day. One whose month is outside 01–12 or whose day is outside 01–31 gives an invalid Date. A number gives an invalid Date exactly when it is more than 8.64e15 either side of 0 |
| Js.HostOnlyForStrings | my-app/src/services/api.ts:280-282 | the host's parser decides `new Date(x)` only for a string outside the `YYYY-MM-DD` form or a day past its month's end; for every other argument two parsers give the same result |
| Js.ClippedTime | my-app/src/services/api.ts:280-282 | the time value of a non-string, non-Date argument, ToNumber followed by TimeClip: none exactly for `undefined` or a number more than 8.64e15 either side of 0; otherwise within ±8.64e15 |
| Js.ClipSamples | my-app/src/services/api.ts:280-282 | `null`, `false` and -0.5 have time 0; `true` and 1.75 have time 1, because a fraction is cut toward zero; one millisecond past the limit either side has no time, and the limit itself is kept |
| Js.ZeroTimeIsEpoch | my-app/src/services/api.ts:280-282 | every argument with time 0 (`null`, `false`, 0, -0.5) gives the Date `1970-01-01T00:00:00.000Z` |
| Js.OneTimeIsFirstMilli | my-app/src/services/api.ts:280-282 | every argument with time 1 (`true`, 1, 1.75) gives the Date `1970-01-01T00:00:00.001Z` |
| Js.FirstSecondIso | my-app/src/services/api.ts:280-282 | toISOString() of a time in the epoch's first second is `1970-01-01T00:00:00.` followed by its three millisecond digits and `Z` |
| Js.DaysInMonth | my-app/src/services/api.ts:280-282 | every month has 28 to 31 days; exactly the months other than February, April, June, September and November have 31; February has 29 exactly in a leap year |
| Js.EpochDayText | my-app/src/services/api.ts:280-282 | day 0 is written `1970-01-01` |
| Js.LeapDaySample | my-app/src/services/api.ts:280-282 | day 11016 is 2000-02-29, the leap day of a century year divisible by 400 |
| Js.DayBeforeEpochSample | my-app/src/services/api.ts:280-282 | day -1 is 1969-12-31, so days before the epoch count back correctly |
| Js.FirstYearSample | my-app/src/services/api.ts:280-282 | day -719528 is 0000-01-01, the first day with a four-digit year |
| Js.LastYearSample | my-app/src/services/api.ts:280-282 | day 2932896 is 9999-12-31, the last day with a four-digit year |
| Mapper.AccountFallback | my-app/src/services/api.ts:283-285 | the fallback account is "PR-" and the last 8 characters of `pr_id`, else of `id`, else "Unknown"; it throws exactly when a non-string, non-nullish id is sliced |
| Mapper.ItemsFromWire | my-app/src/services/api.ts:305-315 | absent items give []; present ones are mapped one for one, count and order kept |
| Mapper.CommentsFromWire | my-app/src/services/api.ts:316-321 | absent comments give []; present ones are mapped one for one, count and order kept |
| Mapper.FromApi | my-app/src/services/api.ts:270-323 | throws exactly when the account is falsy and its fallback throws; otherwise every field is its truthy wire value or, when that is falsy, its own default ("" for text, "USA" for the countries, false for the flag, the `pr_id` for the id); the status, assignee and destination-state fallback chains hold; the shipment date is `new Date` of a truthy wire date, else `now`; a falsy account is the fallback account; items and comments are the wire lists mapped one for one; every text field of the result is filled |
| Mapper.RoundTrip | my-app/src/services/api.ts:239-323 | for a record whose text fields are strings, whose flag is a boolean and whose shipment date is a valid Date with an ISO-instant string: `fromAPI(toAPI(x))` keeps every mapped field and every item field except the item id; an empty country comes back "USA", an empty account "PR-Unknown", and the date as midnight UTC of its day |
| Mapper.FalsyFieldsLost | my-app/src/services/api.ts:239-323 | without those preconditions the round trip is lossy: a falsy discount, accessorial, pickup or delivery (0, false, null, "") comes back as "", and a falsy daylight flag as false |
| Mapper.FromApiHasNoFinalStatus | my-app/src/services/api.ts:278-322 | `fromAPI` never sets `finalApprovalStatus`, so the pages' test of it is always false |
| MockStore.IndexOfId | my-app/src/services/mockData.ts:137 | the index of the first record with the id, or -1 exactly when there is none |
| MockStore.VisibleTo | my-app/src/services/mockData.ts:101-114 | the records a user may list, in store order (an order-preserving sub-list) |
| MockStore.VisibleToCounts | my-app/src/services/mockData.ts:101-114 | every record a user may see is listed as many times as it is stored, and no other record is listed |
| MockStore.SalesSeesOwn | my-app/src/services/mockData.ts:103-104 | a sales executive lists exactly the records they created, each as many times as it is stored |
| MockStore.AnalystSeesNonDrafts | my-app/src/services/mockData.ts:105-112 | any other role lists exactly the records that are not drafts, each as many times as it is stored |
| MockStore.PrStore.GetPRs | my-app/src/services/mockData.ts:101-114 | listing reads the store through `VisibleTo` and changes nothing |
| MockStore.PrStore.GetPR | my-app/src/services/mockData.ts:116-119 | the first record with the id, or none, and changes nothing |
| MockStore.PrStore.GetComments | my-app/src/services/mockData.ts:201-205 | the comments of the first record with the id, or [] |
| MockStore.PrStore.CreatePR | my-app/src/services/mockData.ts:121-133 | appends exactly one draft with no comments, created by "1"; earlier records are unchanged and keep their order |
| MockStore.ApplyPatch | my-app/src/services/mockData.ts:140-141 | the fields the patch gives replace the record's, every other field stays, and `last_updated` is the time of the call |
| MockStore.PrStore.UpdatePR | my-app/src/services/mockData.ts:135-142 | an unknown id throws "PR not found" and changes nothing; a known id patches that one record and leaves the rest and the length unchanged |
| MockStore.PrStore.DeletePR | my-app/src/services/mockData.ts:144-149 | removes exactly the first record with the id; an unknown id throws and changes nothing |
| MockStore.PrStore.SubmitPR | my-app/src/services/mockData.ts:151-160 | sets UNDER_REVIEW, the submission date and `last_updated` on the first match, whatever its status, from two separate clock reads; unknown id throws |
| MockStore.PrStore.ApprovePR | my-app/src/services/mockData.ts:162-170 | sets APPROVED and `last_updated` on the first match; unknown id throws |
| MockStore.PrStore.RejectPR | my-app/src/services/mockData.ts:172-180 | sets REJECTED and `last_updated` on the first match; unknown id throws |
| MockStore.PrStore.AddComment | my-app/src/services/mockData.ts:183-199 | the comment is built and returned with its own clock read as `created_at`; a matching PR gets it appended, becomes ACTION_REQUIRED and takes a second clock read as `last_updated`; no match leaves the store unchanged |
| MockStore.CreateThenDelete | my-app/src/services/mockData.ts:121-149 | deleting a freshly created record gives back the store as it was |
| MockStore.CreatedDraftHiddenFromAnalysts | my-app/src/services/mockData.ts:108-133 | a newly created draft does not change what an analyst lists |
| MockStore.SubmittedIsVisibleToAnalysts | my-app/src/services/mockData.ts:101-160 | submitting a stored record changes an analyst's list by exactly that record: the old version leaves it if it was not a draft, the submitted version joins it, nothing else changes |
| MockStore.VisibleAfterUpdate | my-app/src/services/mockData.ts:101-114 | replacing a stored record by a visible one changes the list by exactly those two records |
| PrDetailsPage.StatusColor | my-app/src/pages/PRDetailsPage.tsx:256-302 | a non-string, non-nullish status throws; the five early statuses never give the active colour; the sales dashboard's `getStatusColor` (my-app/src/pages/SalesDashboard.tsx:57-103) is the same function |
| PrDetailsPage.EarlyStatusColors | my-app/src/pages/PRDetailsPage.tsx:259-268 | draft is default, under_review warning, action_required and rejected error, approved success, whatever the constant |
| PrDetailsPage.LaterStatusColors | my-app/src/pages/PRDetailsPage.tsx:269-300 | with the constant defined, the two active spellings are info, closed follows the closed rule, and anything else is default |
| PrDetailsPage.AsWrittenColorThrows | my-app/src/pages/PRDetailsPage.tsx:269 | as written, every status past the five early cases throws |
| PrDetailsPage.ClosedColor | my-app/src/pages/PRDetailsPage.tsx:272-298 | a closed PR is default, success or error, and default when no PR is passed |
| PrDetailsPage.ClosedFinalDecides | my-app/src/pages/PRDetailsPage.tsx:272-281 | an approved or rejected final status decides success or error, whatever the analyst status or comments |
| PrDetailsPage.ClosedFallbacks | my-app/src/pages/PRDetailsPage.tsx:282-298 | without a final status, the analyst status decides, then only the last comment, then default |
| PrDetailsPage.LastCommentColor | my-app/src/pages/PRDetailsPage.tsx:288-296 | no comments give default; the last comment's text is tested for "approved" before "rejected" |
| PrDetailsPage.DraftControls | my-app/src/pages/PRDetailsPage.tsx:399-403 | Edit, Send to PA and Delete show exactly for a sales executive on a PR whose sales status lower-cases to "draft" |
| PrDetailsPage.IsActionRequired | my-app/src/pages/PRDetailsPage.tsx:431-433 | true exactly for the two spellings of action required, and throws on a non-string |
| PrDetailsPage.ResubmitControls | my-app/src/pages/PRDetailsPage.tsx:431-451 | Edit and Resubmit show exactly for a sales executive on a PR needing action |
| PrDetailsPage.SalesControlsExclusive | my-app/src/pages/PRDetailsPage.tsx:399-451 | the two groups of sales buttons never show together |
| PrDetailsPage.DecisionControls | my-app/src/pages/PRDetailsPage.tsx:455-457 | the decision buttons need an analyst who is the PR's assignee |
| PrDetailsPage.DecisionControlsIff | my-app/src/pages/PRDetailsPage.tsx:455-487 | with the constant defined, the buttons show exactly for an analyst assignee on a PR whose analyst status is an active spelling |
| PrDetailsPage.ActiveSpellingsEnable | my-app/src/pages/PRDetailsPage.tsx:458-460 | "ACTIVE_STATUS", "Active Status" and "active status" each enable them |
| PrDetailsPage.AsWrittenDecisionControlsThrow | my-app/src/pages/PRDetailsPage.tsx:459 | as written, rendering the buttons for an analyst assignee throws |
| PrDetailsPage.SubmitDisabled | my-app/src/pages/PRDetailsPage.tsx:861-866 | a pending decision disables submit; approve never needs a comment |
| PrDetailsPage.CommentRequiredUnlessApprove | my-app/src/pages/PRDetailsPage.tsx:861-866 | for reject and request-action, submit is disabled exactly when the trimmed comment is empty |
| PrDetailsPage.ActionMutation | my-app/src/pages/PRDetailsPage.tsx:325-333 | the dialog dispatches approve, reject or action-required by the chosen action, never resubmit |
| PrDetailsPage.EditDispatch | my-app/src/pages/PRDetailsPage.tsx:778-799 | the edit dialog resubmits exactly when the resubmit controls are shown |
| PrDetailsPage.Optimistic | my-app/src/pages/PRDetailsPage.tsx:122-129 | the optimistic edit changes only the statuses and `lastUpdated`: resubmit sets both to "Active Status", the decisions set the analyst status |
| PrDetailsPage.OptimisticDecisionHidesButtons | my-app/src/pages/PRDetailsPage.tsx:160-166 | after an optimistic decision the decision buttons are hidden, and approve and reject show their colours |
| PrDetailsPage.OptimisticResubmitColor | my-app/src/pages/PRDetailsPage.tsx:122-129 | the resubmitted status is info with the constant defined and throws as written |
| PrDetailsPage.ListKey | my-app/src/pages/PRDetailsPage.tsx:115-119 | the list key of each mutation is never a details key |
| PrDetailsPage.AfterMutateTouchesOnlyDetail | my-app/src/pages/PRDetailsPage.tsx:118-129 | the optimistic edit writes only the detail entry, never the list, and nothing when no detail is cached |
| PrDetailsPage.DetailsPage.OnMutate | my-app/src/pages/PRDetailsPage.tsx:112-133 | snapshots the detail and list entries and applies the optimistic edit |
| PrDetailsPage.DetailsPage.OnError | my-app/src/pages/PRDetailsPage.tsx:134-142 | restores each key to its snapshot when one was taken |
| PrDetailsPage.DetailsPage.OnSettled | my-app/src/pages/PRDetailsPage.tsx:143-148 | invalidates the detail key and the list key, and closes the dialog that started the mutation |
| PrDetailsPage.DetailsPage.Mutate | my-app/src/pages/PRDetailsPage.tsx:110-254 | on success the cache holds the optimistic edit, on failure exactly its old contents; both keys are invalidated either way |
| PrDetailsPage.DetailsPage.HandleActionSubmit | my-app/src/pages/PRDetailsPage.tsx:325-333 | runs the mutation of the chosen action and closes the action dialog; the chosen action type stays as it was |
| SalesDashboard.StatusLabel | my-app/src/pages/SalesDashboard.tsx:105-124 | throws only on a non-string, non-nullish status; any status that is not a labelled form comes back unchanged |
| SalesDashboard.LabelOfEachStatus | my-app/src/pages/SalesDashboard.tsx:105-124 | each of the six enum values gets its display label |
| SalesDashboard.LabelIdempotent | my-app/src/pages/SalesDashboard.tsx:105-124 | labelling a label changes nothing |
| SalesDashboard.MatchesStatus | my-app/src/pages/SalesDashboard.tsx:292-297 | a status matches exactly when its lower case equals the wanted lower case, or that with its first underscore made a space |
| SalesDashboard.Filter | my-app/src/pages/SalesDashboard.tsx:290-299 | keeps exactly the matching PRs, in order, each as many times as it occurs in the input; throws exactly when some PR's status cannot be lower-cased |
| SalesDashboard.FilterCount | my-app/src/pages/SalesDashboard.tsx:290-299 | a filter that succeeds keeps as many PRs as there are positions whose status matches |
| SalesDashboard.FilterPRsByStatus | my-app/src/pages/SalesDashboard.tsx:290-299 | an absent list gives []; otherwise the filter on the sales status |
| SalesDashboard.MatchForms | my-app/src/pages/SalesDashboard.tsx:292-297 | for each enum value, the exact statuses the filter accepts, spaced forms included |
| SalesDashboard.GetStats | my-app/src/pages/SalesDashboard.tsx:301-320 | no list gives zeros; otherwise the total is the length, each bucket is the number of PRs whose sales status matches its constant, and the bucket sum is at most the total; it throws exactly when some status cannot be lower-cased |
| SalesDashboard.BucketsDisjoint | my-app/src/pages/SalesDashboard.tsx:301-320 | the five buckets are pairwise disjoint, so their counts add up to at most the list length |
| SalesDashboard.CardEditable | my-app/src/pages/SalesDashboard.tsx:427-429 | a card's draft buttons show exactly when its sales status lower-cases to "draft" |
| SalesDashboard.DialogEdit | my-app/src/pages/SalesDashboard.tsx:718-724 | tab 0 saves a draft and any other tab submits |
| SalesDashboard.Placeholder | my-app/src/pages/SalesDashboard.tsx:191-196 | the optimistic entry is the form data with a temporary id and the given sales status |
| SalesDashboard.EditList | my-app/src/pages/SalesDashboard.tsx:189-254 | create and submit append one entry after the unchanged list, "Draft" or "Under Review"; delete keeps exactly the other ids, in order, each as often as before |
| SalesDashboard.DeleteRemovesAllCopies | my-app/src/pages/SalesDashboard.tsx:249-254 | no entry with the deleted id survives, and the list does not grow |
| SalesDashboard.ShownKey | my-app/src/pages/SalesDashboard.tsx:166 | the key the list is shown under differs from the key the edits use |
| SalesDashboard.SalesBoard.OnMutate | my-app/src/pages/SalesDashboard.tsx:185-200 | snapshots the list and applies the edit, only when a list is cached |
| SalesDashboard.SalesBoard.OnError | my-app/src/pages/SalesDashboard.tsx:202-206 | restores the list to its snapshot when one was taken |
| SalesDashboard.SalesBoard.OnSettled | my-app/src/pages/SalesDashboard.tsx:207-210 | invalidates the list key and closes the create dialog, except after a delete |
| SalesDashboard.SalesBoard.Mutate | my-app/src/pages/SalesDashboard.tsx:183-266 | on success the cache holds the edit, on failure exactly its old contents; the list key is invalidated either way |
| SalesDashboard.SalesBoard.SubmitDialog | my-app/src/pages/SalesDashboard.tsx:718-724 | dispatches by tab and closes the dialog; the tab stays as it was |
| SalesDashboard.AsWrittenEditsMissShownList | my-app/src/pages/SalesDashboard.tsx:166-197 | the edits never reach the list as it is shown |
| SalesDashboard.CorrectedEditsReachShownList | my-app/src/pages/SalesDashboard.tsx:166-197 | under the shown key, a saved draft appears at the end of the shown list |
| AnalystDashboard.StatusColor | my-app/src/pages/AnalystDashboard.tsx:54-76 | the active colour only for a status past the five early cases |
| AnalystDashboard.ColorAgreesWithDetails | my-app/src/pages/AnalystDashboard.tsx:54-76 | the analyst colour depends on the status alone; closed and unknown statuses are default |
| AnalystDashboard.StatusLabel | my-app/src/pages/AnalystDashboard.tsx:78-100 | succeeds only on a string or nullish status |
| AnalystDashboard.LabelExtendsSalesLabel | my-app/src/pages/AnalystDashboard.tsx:78-100 | with the constant defined, the active spellings give "Active Status" and everything else gets the sales dashboard's label |
| AnalystDashboard.AsWrittenLabelThrows | my-app/src/pages/AnalystDashboard.tsx:91 | as written, every status past the five early cases throws, closed included |
| AnalystDashboard.ChipStatus | my-app/src/pages/AnalystDashboard.tsx:278-281 | the chip shows the analyst status when truthy, else the sales status |
| AnalystDashboard.FilterPRsByStatus | my-app/src/pages/AnalystDashboard.tsx:202-211 | keeps exactly the PRs whose analyst status matches, in order, each as many times as it occurs in the input |
| AnalystDashboard.GetStats | my-app/src/pages/AnalystDashboard.tsx:213-221 | the sizes are the list lengths or 0; the active and closed counts are the numbers of assigned PRs whose analyst status matches the active constant and CLOSED, so at most the assigned count |
| AnalystDashboard.AsWrittenStatsThrow | my-app/src/pages/AnalystDashboard.tsx:217 | as written, the counts throw exactly when the analyst has an assigned PR |
| AnalystDashboard.AssignButton | my-app/src/pages/AnalystDashboard.tsx:330 | Assign shows only on available-list cards with no assignee |
| AnalystDashboard.CardQuickActions | my-app/src/pages/AnalystDashboard.tsx:351-385 | the icons can be computed only when the constant exists and the analyst status is a string or nullish |
| AnalystDashboard.QuickActionsIff | my-app/src/pages/AnalystDashboard.tsx:351-385 | with the constant defined, the decision icons show exactly for the active spellings and the comment icon exactly for action required |
| AnalystDashboard.AsWrittenCardsThrow | my-app/src/pages/AnalystDashboard.tsx:351-353 | as written, drawing any card's quick actions throws |
| AnalystDashboard.AnalystBoard.Assign | my-app/src/pages/AnalystDashboard.tsx:180-186 | no optimistic edit; success invalidates the available and the assigned list, failure changes nothing |
| AnalystDashboard.ShownKey | my-app/src/pages/AnalystDashboard.tsx:142-165 | a list's cache key is its base key followed by the user id, so the base key is a prefix of it |
| AnalystDashboard.AsWrittenDecisionsMissAnalystLists | my-app/src/pages/PRDetailsPage.tsx:150-251 | the keys a decision or comment invalidates on settling start neither analyst list key, so neither list is invalidated |
| AnalystDashboard.CorrectedSettleKeys | my-app/src/pages/AnalystDashboard.tsx:180-186 | a corrected settle invalidates the details key, and for a decision both analyst list keys |
| AnalystDashboard.CorrectedDecisionsRefreshAnalystLists | my-app/src/pages/AnalystDashboard.tsx:142-165 | with the corrected keys every decision reaches both analyst lists, whoever is signed in |
| Validation.SignupIssues | my-app/src/utils/validation.ts:4-11 | no issue exactly when the name has 2 or more characters, the email is well formed, the password has 6 or more and the role is one of the two `UserRole` values |
| Validation.SignupRoleIssue | my-app/src/utils/validation.ts:8-10 | the role issue is reported exactly when the role is neither value |
| Validation.RoleCodesRejected | my-app/src/utils/validation.ts:8-10 | the short codes "SE" and "PA" are refused as roles |
| Validation.LoginIssues | my-app/src/utils/validation.ts:13-16 | no issue exactly when the email is well formed and the password is not empty |
| Validation.CommentIssues | my-app/src/utils/validation.ts:62-64 | no issue exactly when the comment text is not empty |
| Validation.ItemIssues | my-app/src/utils/validation.ts:18-26 | no issue exactly when the three names are filled, the weight is positive, units and pieces are positive integers and pallets an integer of 0 or more |
| Validation.ItemBoundIssues | my-app/src/utils/validation.ts:21-25 | the weight and pallet issues are reported exactly when those bounds are broken |
| Validation.ItemsIssues | my-app/src/utils/validation.ts:49 | no item issue exactly when every item is valid |
| Validation.PrFormIssues | my-app/src/utils/validation.ts:28-60 | no issue exactly when the date is valid, the nine header and address strings are filled, the discount is in [0, 100], and there is at least one item and every item is valid |
| Validation.DiscountIssues | my-app/src/utils/validation.ts:34 | each bound of the discount reports its own issue exactly when broken |
| Validation.EmptyItemsIssue | my-app/src/utils/validation.ts:49 | an empty item list reports "At least one item is required" |
| Validation.InsuranceOptional | my-app/src/utils/validation.ts:57-59 | the coverage flag and the insurance texts never change the issues |
| Validation.ReportEmptyIff | my-app/src/utils/validation.ts:28-60 | a schema reports no issue exactly when all its checks pass |
| Endpoints.SalesById | my-app/src/config/api.ts:20 | the by-id path is "/sales/pr/" followed by the id verbatim |
| Endpoints.SalesUpdate | my-app/src/config/api.ts:21 | update uses the by-id path |
| Endpoints.SalesDelete | my-app/src/config/api.ts:23 | delete uses the by-id path |
| Endpoints.SalesResubmit | my-app/src/config/api.ts:22 | the by-id path and "/resubmit" |
| Endpoints.SalesSendToPa | my-app/src/config/api.ts:24 | the by-id path and "/send-to-pa" |
| Endpoints.PaById | my-app/src/config/api.ts:29 | "/pa/pr/" followed by the id verbatim |
| Endpoints.PaAssign | my-app/src/config/api.ts:30 | the PA by-id path and "/assign" |
| Endpoints.PaApproveReject | my-app/src/config/api.ts:31 | the PA by-id path and "/approve-reject" |
| Endpoints.BuildApiUrl | my-app/src/config/api.ts:37-39 | the base URL followed by the endpoint, so every URL starts with the base |
| Endpoints.BuildersInjective | my-app/src/config/api.ts:20-31 | distinct ids give distinct paths for every builder |
| Endpoints.ByIdMeetsResubmit | my-app/src/config/api.ts:20-30 | an id ending in "/resubmit" or "/assign" produces the same path as the action builder |
| Endpoints.FixedPathsAgainstBuilders | my-app/src/config/api.ts:17-29 | the by-id builders reproduce a fixed path exactly for the ids "save", "submit" (sales) and "my" (PA), and never the list paths |
| AuthContext.RoleOfCode | my-app/src/contexts/AuthContext.tsx:40-43 | a profile role is a sales executive exactly when its code is "SE" |
| AuthContext.CodeForSignup | my-app/src/contexts/AuthContext.tsx:119 | signup sends "SE" exactly when the role is SALES_EXECUTIVE, otherwise "PA" |
| AuthContext.RoleCodeRoundTrip | my-app/src/contexts/AuthContext.tsx:119-133 | for both roles, the code sent reads back as the same role |
| AuthContext.CodeRoleRoundTrip | my-app/src/contexts/AuthContext.tsx:40-43 | for both codes, the role read sends back the same code |
| AuthContext.UserOf | my-app/src/contexts/AuthContext.tsx:77-86 | the user carries the profile's id, name and email, and its mapped role |
| AuthContext.RouteOf | my-app/src/contexts/AuthContext.tsx:93-97 | a sales executive is sent to /sales, an analyst to /analyst |
| AuthContext.SignInOutcome | my-app/src/contexts/AuthContext.tsx:70-100 | the first failing call's reason is rethrown; otherwise the user built from the profile |
| AuthContext.StoredToken | my-app/src/services/api.ts:83-86 | a reply's non-empty access token replaces the stored token |
| AuthContext.Session.constructor | my-app/src/contexts/AuthContext.tsx:22-23 | no user, loading |
| AuthContext.Session.StartUp | my-app/src/contexts/AuthContext.tsx:26-60 | loading ends; a missing or empty stored token (falsy for `if (token)`) changes nothing else; with a non-empty token a fetched profile sets the user and a failed fetch removes the token |
| AuthContext.Session.Login | my-app/src/contexts/AuthContext.tsx:67-104 | loading ends either way; success sets the user and routes by role; failure rethrows and leaves the user |
| AuthContext.Session.Signup | my-app/src/contexts/AuthContext.tsx:106-153 | sends the code for the role, then as login |
| AuthContext.Session.Logout | my-app/src/contexts/AuthContext.tsx:155-165 | the user is cleared and the token removed even when the remote call fails |
| AuthPage.LoginCheck | my-app/src/pages/AuthPage.tsx:117-120 | an empty email or password gives "Please fill in all fields"; otherwise no error |
| AuthPage.RegisterCheck | my-app/src/pages/AuthPage.tsx:135-153 | any empty field comes first, then the mismatch, then the length; accepted exactly when all are filled, equal and 6 or longer |
| AuthPage.RoleArgument | my-app/src/pages/AuthPage.tsx:160-162 | "SE" becomes SALES_EXECUTIVE and anything else PRICING_ANALYST |
| AuthPage.RegisterSendsChosenCode | my-app/src/pages/AuthPage.tsx:156-163 | through this tab, the code sent is the code chosen |
| AuthPage.FailureMessage | my-app/src/pages/AuthPage.tsx:126 | an Error's message, else the fallback text |
| AuthPage.Page.TabChange | my-app/src/pages/AuthPage.tsx:82-86 | switches tab and clears both messages |
| AuthPage.Page.HandleLogin | my-app/src/pages/AuthPage.tsx:112-128 | a failed check sets its error and never calls login, leaving the session as it was; otherwise loading ends, a resolved reply's truthy `access_token` is stored (even when the profile fetch then fails), and success or the failure's message follows |
| AuthPage.Page.HandleRegister | my-app/src/pages/AuthPage.tsx:130-168 | a failed check sets its error and never calls signup, leaving the session as it was; otherwise the chosen code is sent, loading ends, a resolved reply's truthy `access_token` is stored, and success or the failure's message follows |
| SignupPage.RegisterCheck | my-app/src/pages/SignupPage.tsx:61-68 | any empty field comes first, then the length; accepted exactly when all are filled and the password is 6 or longer |
| SignupPage.ChecksAgreeWithRegisterTab | my-app/src/pages/SignupPage.tsx:61-68 | the page's checks are the register tab's with the password confirmed |
| SignupPage.EveryChoiceSentAsAnalyst | my-app/src/pages/SignupPage.tsx:70-75 | either role choice is sent as "PA" |
| SignupPage.CorrectedSendsChosenCode | my-app/src/pages/SignupPage.tsx:70-75 | mapping the choice to its role first sends the code chosen |
| SignupPage.Page.HandleRegister | my-app/src/pages/SignupPage.tsx:57-80 | a failed check sets its error and never calls signup, leaving the session as it was; otherwise the raw code is forwarded, loading ends, a resolved reply's truthy `access_token` is stored, and success or the failure's message follows |

## Left out

- HTTP transport, auth headers and `localStorage` beyond the one stored token. Remote calls are parameters holding their outcome.
- react-query itself: cancellation, refetching and retry. Invalidation is recorded against the exact key given; `QueryCache.Marks` states which cached keys it reaches by prefix.
- Time and randomness: `new Date()`, `Date.now()` ids and the store's delays are parameters. A Date is held as its toISOString() text. Parsing a date string that is not a `YYYY-MM-DD` form, or that names a day past its month's end, is a parameter.
- Js.NewDate: the other forms of ECMAScript's date-time string format are not parsed but given to the host parameter: `YYYY`, `YYYY-MM`, the six-digit signed years `±YYYYYY-MM-DD`, and the date-time forms `YYYY-MM-DDTHH:mm[:ss[.sss]]` with `Z` or a `±HH:mm` offset. ECMAScript fixes their results (for example `new Date("2024-01-15T10:00:00.000Z")` is the same instant in every engine); the model only promises that they give a Date or an invalid Date. Only the date-only form the API sends is modelled.
- zod's email check is a parameter.
- String lengths count characters, not UTF-16 code units. Lower-casing covers ASCII letters only. Numbers are reals, never NaN or infinite, so `new Date(NaN)` and `new Date(Infinity)` are not modelled.
- Rendering, styling, routing and navigation. A login's route is returned rather than followed.
- The seed records of the in-memory store. The store starts from any sequence.
- The `createdAt` field of the optimistic placeholder.
- The `isPending` flags that disable the dialogs' buttons while a call runs.
- SalesDashboard.Placeholder: the form data is taken to carry no `id` of its own. One spread after the temporary id would replace it.
- MockStore.ApplyPatch: a patch field given explicitly as `undefined` is modelled as not given.
- The non-optimistic update, delete and send-to-PA mutations of the details page, which only invalidate.
- The profile `createdAt` is kept as the string the back end sends, not a `Date`.

## Findings

| source | as written | input that shows it | evidently intended | confidence | as-written member | corrected member |
|---|---|---|---|---|---|---|
| my-app/src/pages/SignupPage.tsx:70-75 | the page passes its raw role code to `signup`, which sends "SE" only for "SALES_EXECUTIVE" | choosing "SE" registers a pricing analyst | map "SE" to SALES_EXECUTIVE first, as the register tab does | not executed | SignupPage.EveryChoiceSentAsAnalyst | SignupPage.CorrectedSendsChosenCode |
| my-app/src/pages/SalesDashboard.tsx:166-197 | the list is cached under `["sales-prs", user?.id]`, but the optimistic edits read and write `["sales-prs"]` | any create, submit or delete while the list is shown | edit the list under the key it is shown with | not executed | SalesDashboard.AsWrittenEditsMissShownList | SalesDashboard.CorrectedEditsReachShownList |
| my-app/src/types/index.ts:8-15 | `PRStatus` has no `ACTIVE_STATUS`, so `PRStatus.ACTIVE_STATUS.toLowerCase()` throws | a PR with status "closed" on any page | a member `ACTIVE_STATUS: "ACTIVE_STATUS"` | not executed | PrDetailsPage.AsWrittenColorThrows | PrDetailsPage.LaterStatusColors |
| my-app/src/pages/PRDetailsPage.tsx:150-251 | approve, reject and request-action invalidate `["pa-prs"]`, but the analyst lists are cached under `["pa-available-prs", user?.id]` and `["pa-my-prs", user?.id]` (AnalystDashboard.tsx:142,165) | any decision, then back to the analyst dashboard | invalidate `["pa-available-prs"]` and `["pa-my-prs"]`, as the assign mutation does | not executed | AnalystDashboard.AsWrittenDecisionsMissAnalystLists | AnalystDashboard.CorrectedDecisionsRefreshAnalystLists |
