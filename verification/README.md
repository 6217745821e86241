# Recruitapp core, modelled in Dafny

Recruitapp is a recruitment tool: a React front end over a Django REST back end,
managing candidates, job offers and the applications that pair them. This project
models its logic, not its screens.

Front end:

- **The resource stores.** The applications, candidates and job offers stores each
  keep a list, a loading flag and the last error. They are classes whose methods
  take the outcome of the service call (`Success` with the server's reply, or
  `Failure` with the thrown error's message) and update the fields in place. The
  authentication store is a class whose four operations are specified as functions
  on its state value.
- **The list pages.** Applications, job offers, candidates and files each have:
  - a free-text search: a case-insensitive substring test over concatenated fields;
  - a filter handler: a chain of `if (set) filtered = filtered.filter(test)` stages.

  Each filter chain is a method proved equal to one `Filter` by the conjunction of
  its stages. A lemma per page spells that conjunction out, clause by clause.
- **The filters panel.** It edits the filter object: a field write, the status
  toggle, and the skills box that splits on commas and trims.
- **The formatters.** Phone-number grouping and the status colour and label maps.

Back end:

- The permission classes.
- The viewsets' querysets, creation hooks, the `applications` action and the
  statistics.
- The serializers' duplicate check, `applications_count` and read-only fields.

  The database is a value with one sequence of rows per table. A create returns
  the database after the insert.

Files:

- `wrappers.dfy`: `Option`, `Outcome`, `Result`.
- `text.dfy`: `toLowerCase`, `includes`, `join`, `split`, `trim`.
- `seqs.dfy`: `filter`, keyed `map`, subsequences, filter chains.
- `entities.dfy`: the front end's types and object spread.
- `store_spec.dfy`, `applications_store.dfy`, `candidates_store.dfy`, `job_offers_store.dfy`, `auth_store.dfy`: the stores.
- `filters_panel.dfy`, `applications_page.dfy`, `job_offers_page.dfy`, `candidates_page.dfy`, `files_page.dfy`: the panel and the pages.
- `formatters.dfy`: the display formatters.
- `models.dfy`, `permissions.dfy`, `serializers.dfy`, `views.dfy`: the back end.

Where the design description and the code differ, the model follows the code:

- The candidates page accepts a location filter and ignores it (`CandidatesPage.LocationIgnored`).
- A status update sets the status locally; it does not merge the server's reply.
- An application without an attached offer (or candidate) fails the location (or skills) filter.

## Model

| member | source | states |
|---|---|---|
| Seqs.Filter | frontend/src/store/applicationsStore.ts:99 | every item `filter` keeps satisfies the predicate, and the list never grows |
| Seqs.FilterMembers | frontend/src/store/applicationsStore.ts:99 | an item is in the result exactly when it is in the input and satisfies the predicate |
| Seqs.FilterMultiset | frontend/src/store/applicationsStore.ts:99 | filtering keeps every copy of a kept item and no copy of a dropped one |
| Seqs.FilterAtMostOne | core/views.py:37 | when no two items both satisfy the predicate, at most one survives |
| Seqs.FilterDistinct | frontend/src/components/features/FiltersPanel.tsx:38-40 | filtering a list without repetitions leaves none |
| Seqs.FilterIsSubsequence | frontend/src/pages/applications/ApplicationsPage.tsx:49-89 | a filter result keeps the input's relative order |
| Seqs.FilterKeepsAll | frontend/src/pages/applications/ApplicationsPage.tsx:49 | filtering by a predicate every item satisfies changes nothing |
| Seqs.FilterAgree | frontend/src/pages/offers/JobOffersPage.tsx:71-86 | predicates that agree on the items give the same filter result |
| Seqs.FilterFilter | frontend/src/pages/applications/ApplicationsPage.tsx:51-61 | two successive filters are one filter by the conjunction |
| Seqs.FilterIdempotent | frontend/src/store/applicationsStore.ts:99 | a filter result is a fixed point of the same filter |
| Seqs.FilterAppend | frontend/src/store/applicationsStore.ts:47 | filtering distributes over concatenation |
| Seqs.FilterStage | frontend/src/pages/applications/ApplicationsPage.tsx:51-55 | one conditional stage after a chain equals one filter by the chain's predicate strengthened by the stage |
| Seqs.ChainStep | frontend/src/pages/candidates/CandidatesPage.tsx:48-67 | running one more stage after a chain is running the longer chain |
| Seqs.ChainInactive | frontend/src/pages/candidates/CandidatesPage.tsx:45-69 | a chain with no filter set keeps the whole list |
| Seqs.Narrow | frontend/src/pages/offers/JobOffersPage.tsx:49-53 | one `if (set) filtered = filtered.filter(test)` turns the chain-so-far's result into the result of the chain with that stage added |
| Seqs.UpdateWhere | frontend/src/store/applicationsStore.ts:81-83 | the keyed `map` rewrites exactly the items with the id, keeps the others and the length |
| Seqs.Count | core/serializers.py:45 | a count never exceeds the length, and is zero only when no item qualifies |
| Seqs.CountPositive | core/views.py:92-96 | a qualifying item makes the count at least one |
| Text.LowerChar | frontend/src/pages/files/FilesPage.tsx:58 | `toLowerCase` on a character: a capital maps to code point +0x20, its small letter, and other characters are kept |
| Text.CaseVariantsFold | frontend/src/pages/files/FilesPage.tsx:58-59 | two strings differing only in letter case lower-case to the same string |
| Text.CaseVariantFound | frontend/src/pages/files/FilesPage.tsx:58-59 | a text holding a pattern holds, ignoring case, every case variant of it |
| Text.Lower | frontend/src/pages/files/FilesPage.tsx:58 | `toLowerCase` keeps the length and lower-cases each character |
| Text.LowerIdempotent | frontend/src/pages/files/FilesPage.tsx:59 | lower-casing twice is lower-casing once |
| Text.LowerAppend | frontend/src/pages/offers/JobOffersPage.tsx:25 | lower-casing a template string lower-cases each part |
| Text.ContainsAt | frontend/src/pages/files/FilesPage.tsx:59 | `includes` holds exactly when the pattern occurs at some index |
| Text.ContainsEmpty | frontend/src/pages/candidates/CandidatesPage.tsx:52 | every string includes the empty string |
| Text.Split | frontend/src/components/features/FiltersPanel.tsx:91 | `split(',')` gives at least one piece and no piece holds the separator |
| Text.JoinSplit | frontend/src/components/features/FiltersPanel.tsx:91 | joining the pieces with the separator gives back the text |
| Text.SplitNoSeparator | frontend/src/components/features/FiltersPanel.tsx:91 | text without the separator splits into itself |
| Text.TrimStart | frontend/src/components/features/FiltersPanel.tsx:91 | drops leading white space only: a suffix, all dropped characters are space, none left in front |
| Text.TrimEnd | frontend/src/components/features/FiltersPanel.tsx:91 | drops trailing white space only: a prefix, all dropped characters are space, none left at the end |
| Text.TrimSpec | frontend/src/components/features/FiltersPanel.tsx:91 | `trim` returns the text between its edge spaces, with no space at either end |
| Text.TrimOfTrimmed | frontend/src/components/features/FiltersPanel.tsx:91 | a string with no space at either end is its own trim |
| Text.TrimIdempotent | frontend/src/components/features/FiltersPanel.tsx:91 | trimming twice is trimming once |
| Entities.MergeApplicationOverlay | frontend/src/store/applicationsStore.ts:82 | the spread: an empty reply changes nothing, a field present in the reply wins, an absent one is kept, applying twice is applying once |
| Entities.MergeFullApplication | frontend/src/store/applicationsStore.ts:82 | a reply carrying every field replaces the application |
| Entities.MergeCandidateOverlay | frontend/src/store/candidatesStore.ts:58 | the spread on candidates: empty reply is identity, id kept when absent, idempotent |
| Entities.MergeJobOfferOverlay | frontend/src/store/jobOffersStore.ts:58 | the spread on offers: empty reply is identity, id kept when absent, idempotent |
| StoreSpec.RemovedSpec | frontend/src/store/applicationsStore.ts:99 | remove deletes every item with the id, keeps the others in order with every copy, and is a no-op for an absent id |
| StoreSpec.RemovedIdempotent | frontend/src/store/candidatesStore.ts:75 | removing an id twice is removing it once |
| StoreSpec.UpdatedSpec | frontend/src/store/jobOffersStore.ts:57-59 | an update keeps the length, rewrites exactly the matching items, and is a no-op for an absent id |
| ApplicationsStore.StatusUpdateSpec | frontend/src/store/applicationsStore.ts:62-65 | a status update sets the status of the matching applications and changes nothing else |
| ApplicationsStore.StatusUpdateExample | frontend/src/store/applicationsStore.ts:58-67 | `updateApplicationStatus("1", "accepted")` on a pending application "1" gives it status accepted |
| ApplicationsStore.RemoveExample | frontend/src/store/applicationsStore.ts:94-101 | removing "2" from applications "1", "2", "3" leaves "1", "3" |
| ApplicationsStore.Store.constructor | frontend/src/store/applicationsStore.ts:24-27 | starts empty, not loading, without error |
| ApplicationsStore.Store.BeginRequest | frontend/src/store/applicationsStore.ts:30 | sets loading, clears the error, keeps the list |
| ApplicationsStore.Store.Fail | frontend/src/store/applicationsStore.ts:34-38 | records the error message (or the default French text), stops loading, keeps the list |
| ApplicationsStore.Store.GetAllApplications | frontend/src/store/applicationsStore.ts:29-40 | success replaces the list wholesale and clears the error; failure keeps the list and records the error; loading ends either way |
| ApplicationsStore.Store.AddApplication | frontend/src/store/applicationsStore.ts:42-56 | success appends the created application at the end; failure keeps the list and records the error |
| ApplicationsStore.Store.UpdateApplicationStatus | frontend/src/store/applicationsStore.ts:58-74 | success sets the status of the matching applications; failure keeps the list and records the error |
| ApplicationsStore.Store.UpdateApplicationData | frontend/src/store/applicationsStore.ts:76-92 | success overlays the server's reply on the matching applications; failure keeps the list and records the error |
| ApplicationsStore.Store.RemoveApplication | frontend/src/store/applicationsStore.ts:94-108 | success drops every application with the id; failure keeps the list and records the error |
| CandidatesStore.Store.constructor | frontend/src/store/candidatesStore.ts:19-21 | starts empty, not loading, without error |
| CandidatesStore.Store.BeginRequest | frontend/src/store/candidatesStore.ts:24 | sets loading, clears the error, keeps the list |
| CandidatesStore.Store.Fail | frontend/src/store/candidatesStore.ts:29-32 | records the error message or the default text, stops loading, keeps the list |
| CandidatesStore.Store.GetAllCandidates | frontend/src/store/candidatesStore.ts:23-34 | success replaces the list; failure keeps it and records the error |
| CandidatesStore.Store.AddCandidate | frontend/src/store/candidatesStore.ts:36-50 | success appends the created candidate; failure keeps the list and records the error |
| CandidatesStore.Store.UpdateCandidateData | frontend/src/store/candidatesStore.ts:52-68 | success overlays the reply on the matching candidates; failure keeps the list and records the error |
| CandidatesStore.Store.RemoveCandidate | frontend/src/store/candidatesStore.ts:70-84 | success drops the candidates with the id; failure keeps the list and records the error |
| JobOffersStore.Store.constructor | frontend/src/store/jobOffersStore.ts:19-21 | starts empty, not loading, without error |
| JobOffersStore.Store.BeginRequest | frontend/src/store/jobOffersStore.ts:24 | sets loading, clears the error, keeps the list |
| JobOffersStore.Store.Fail | frontend/src/store/jobOffersStore.ts:29-32 | records the error message or the default text, stops loading, keeps the list |
| JobOffersStore.Store.GetAllJobOffers | frontend/src/store/jobOffersStore.ts:23-34 | success replaces the list; failure keeps it and records the error |
| JobOffersStore.Store.AddJobOffer | frontend/src/store/jobOffersStore.ts:36-50 | success appends the created offer; failure keeps the list and records the error |
| JobOffersStore.Store.UpdateJobOfferData | frontend/src/store/jobOffersStore.ts:52-68 | success overlays the reply on the matching offers; failure keeps the list and records the error |
| JobOffersStore.Store.RemoveJobOffer | frontend/src/store/jobOffersStore.ts:70-84 | success drops the offers with the id; failure keeps the list and records the error |
| AuthStore.Initial | frontend/src/store/authStore.ts:24-28 | no user, no token, not authenticated, not loading, no error; consistent |
| AuthStore.LoggedIn | frontend/src/store/authStore.ts:30-37 | stores user and token, authenticated, loading and error cleared; consistent |
| AuthStore.LoggedOut | frontend/src/store/authStore.ts:42-49 | every field back to the initial state |
| AuthStore.WithLoading | frontend/src/store/authStore.ts:54 | only the loading flag changes; consistency is preserved |
| AuthStore.WithError | frontend/src/store/authStore.ts:55 | only the error changes; consistency is preserved |
| AuthStore.LoginThenLogout | frontend/src/store/authStore.ts:30-52 | signing in then out from any state gives the initial state |
| AuthStore.RunKeepsConsistent | frontend/src/store/authStore.ts:23-56 | after any sequence of calls, authenticated holds exactly when a token is held |
| AuthStore.Store.constructor | frontend/src/store/authStore.ts:24-28 | the store starts in the initial state |
| AuthStore.Store.Login | frontend/src/store/authStore.ts:30-37 | the new state is the signed-in state, consistent |
| AuthStore.Store.Logout | frontend/src/store/authStore.ts:42-49 | the new state is the initial state |
| AuthStore.Store.SetLoading | frontend/src/store/authStore.ts:54 | the new state differs only in the loading flag |
| AuthStore.Store.SetError | frontend/src/store/authStore.ts:55 | the new state differs only in the error |
| FiltersPanel.Changed | frontend/src/components/features/FiltersPanel.tsx:32-34 | writing one filter field sets that field and leaves every other field as it was |
| FiltersPanel.ToggleStatusSpec | frontend/src/components/features/FiltersPanel.tsx:36-43 | a present status is removed (all copies, others kept in order), an absent one is appended at the end |
| FiltersPanel.ToggleTwiceAbsent | frontend/src/components/features/FiltersPanel.tsx:38-40 | toggling an absent status twice restores the list |
| FiltersPanel.ToggleTwiceSameStatuses | frontend/src/components/features/FiltersPanel.tsx:38-40 | on a list without repetitions, toggling twice keeps the same set of statuses and still has no repetitions |
| FiltersPanel.ToggleKeepsDistinct | frontend/src/components/features/FiltersPanel.tsx:38-40 | toggling keeps a status list free of repetitions |
| FiltersPanel.ToggleTwiceMovesToEnd | frontend/src/components/features/FiltersPanel.tsx:38-40 | toggling a present status twice can reorder: `[pending, accepted]` becomes `[accepted, pending]` |
| FiltersPanel.TrimAll | frontend/src/components/features/FiltersPanel.tsx:91 | `map(s => s.trim())` trims each piece and keeps the count |
| FiltersPanel.ParseSkillsSpec | frontend/src/components/features/FiltersPanel.tsx:91 | the skills box gives one entry per comma plus one, `[""]` for empty text, each entry comma-free and trimmed |
| FiltersPanel.TrimmedPiece | frontend/src/components/features/FiltersPanel.tsx:91 | trimming a comma-free piece gives a comma-free entry with no space at either end |
| FiltersPanel.ParseEmpty | frontend/src/components/features/FiltersPanel.tsx:91 | an empty box parses to one empty entry |
| FiltersPanel.SplitAfter | frontend/src/components/features/FiltersPanel.tsx:91 | splitting after a separator-free prefix and a separator peels that prefix off |
| FiltersPanel.TrimLeadingSpaces | frontend/src/components/features/FiltersPanel.tsx:91 | trimming removes exactly the white space in front of a trimmed string |
| FiltersPanel.ParseOneSkill | frontend/src/components/features/FiltersPanel.tsx:90-91 | a single displayed skill parses back to itself |
| FiltersPanel.ParseFirstSkill | frontend/src/components/features/FiltersPanel.tsx:90-91 | the first displayed skill parses back as the first entry |
| FiltersPanel.ParseJoinedFrom | frontend/src/components/features/FiltersPanel.tsx:90-91 | a comma-free trimmed list, displayed after white space, parses back to itself |
| FiltersPanel.SkillsInputRoundTrip | frontend/src/components/features/FiltersPanel.tsx:90-91 | the box's displayed text `join(', ')` parses back to the list of comma-free trimmed skills |
| FiltersPanel.Panel.constructor | frontend/src/components/features/FiltersPanel.tsx:16 | the panel starts with the empty filter object |
| FiltersPanel.Panel.HandleFilterChange | frontend/src/components/features/FiltersPanel.tsx:32-34 | the new filter object is the old one with that field written |
| FiltersPanel.Panel.HandleStatusChange | frontend/src/components/features/FiltersPanel.tsx:36-43 | the status field becomes the toggled list (absent list read as empty) |
| FiltersPanel.Panel.HandleSkillsInput | frontend/src/components/features/FiltersPanel.tsx:91 | the skills field becomes the parsed box text |
| FiltersPanel.Panel.ApplyFilters | frontend/src/components/features/FiltersPanel.tsx:45-47 | hands over the current filter object unchanged |
| FiltersPanel.Panel.ClearFilters | frontend/src/components/features/FiltersPanel.tsx:49-52 | resets to the empty object and hands the empty object over |
| ApplicationsPage.Search | frontend/src/pages/applications/ApplicationsPage.tsx:23-42 | empty query gives every application; otherwise exactly those whose candidate name or offer title holds the query, in order, each match keeping every copy |
| ApplicationsPage.BareApplicationNotFound | frontend/src/pages/applications/ApplicationsPage.tsx:27-30 | without candidate or offer an application contributes `''` and no non-empty query finds it |
| ApplicationsPage.SearchIgnoresQueryCase | frontend/src/pages/applications/ApplicationsPage.tsx:31 | searching for the lower-cased query gives the same result |
| ApplicationsPage.StagesMeanMatch | frontend/src/pages/applications/ApplicationsPage.tsx:51-87 | surviving the five stages is meeting every set filter clause |
| ApplicationsPage.ApplyFilters | frontend/src/pages/applications/ApplicationsPage.tsx:48-90 | the step-by-step narrowing equals one filter by the whole chain |
| ApplicationsPage.FilterResultSpec | frontend/src/pages/applications/ApplicationsPage.tsx:49-89 | result membership is the AND of the set clauses (status in list; offer location; candidate skill; date bounds), order kept, no filters gives everything |
| ApplicationsPage.FilterResultCounts | frontend/src/pages/applications/ApplicationsPage.tsx:49-89 | each row matching the filters survives with every copy it has in the list, every other row with none |
| ApplicationsPage.SkillsFilterIgnoresCase | frontend/src/pages/applications/ApplicationsPage.tsx:63-71 | an application whose candidate has skills React and Node passes the skills filter "react" |
| ApplicationsPage.DateBoundsInclusive | frontend/src/pages/applications/ApplicationsPage.tsx:73-87 | the bounds are inclusive; an unparsable creation date fails either bound |
| ApplicationsPage.Page.constructor | frontend/src/pages/applications/ApplicationsPage.tsx:15-17 | the shown list starts as the store's list, the query empty |
| ApplicationsPage.Page.SearchEffect | frontend/src/pages/applications/ApplicationsPage.tsx:23-42 | the shown list becomes the search result for the current query |
| ApplicationsPage.Page.HandleSearch | frontend/src/pages/applications/ApplicationsPage.tsx:44-46 | stores the query; a new query shows its search result, the query already held leaves the shown result (a filter result, say) as it was |
| ApplicationsPage.Page.ReceiveApplications | frontend/src/pages/applications/ApplicationsPage.tsx:23-42 | a new store list is searched with the current query |
| ApplicationsPage.Page.HandleApplyFilters | frontend/src/pages/applications/ApplicationsPage.tsx:48-90 | the shown list is the full list filtered, ignoring the current search; the query is kept |
| JobOffersPage.Search | frontend/src/pages/offers/JobOffersPage.tsx:22-40 | empty query gives every offer; otherwise exactly those whose title and company, location, requirements or description hold the query, in order, each match keeping every copy |
| JobOffersPage.TitleHitFound | frontend/src/pages/offers/JobOffersPage.tsx:25-30 | an offer whose title holds the query is found |
| JobOffersPage.MapStatus | frontend/src/pages/offers/JobOffersPage.tsx:74-81 | pending reads as draft, in progress and accepted as open, rejected as closed, anything else unchanged |
| JobOffersPage.MapStatusIdempotent | frontend/src/pages/offers/JobOffersPage.tsx:74-81 | translating twice is translating once; offer codes pass through |
| JobOffersPage.MapStatuses | frontend/src/pages/offers/JobOffersPage.tsx:81 | the translated list translates each code in place |
| JobOffersPage.MapStatusesMembers | frontend/src/pages/offers/JobOffersPage.tsx:81-85 | an offer status is in the translated list exactly when some selected code translates to it |
| JobOffersPage.StagesMeanMatch | frontend/src/pages/offers/JobOffersPage.tsx:49-86 | surviving the four stages is meeting every set filter clause |
| JobOffersPage.ApplyFilters | frontend/src/pages/offers/JobOffersPage.tsx:46-89 | the step-by-step narrowing equals one filter by the whole chain |
| JobOffersPage.FilterResultSpec | frontend/src/pages/offers/JobOffersPage.tsx:46-88 | result membership is the AND of location, skills-in-requirements, experience and translated status; order kept; no filters gives everything |
| JobOffersPage.FilterResultCounts | frontend/src/pages/offers/JobOffersPage.tsx:46-88 | each row matching the filters survives with every copy it has in the list, every other row with none |
| JobOffersPage.AcceptedMeansOpen | frontend/src/pages/offers/JobOffersPage.tsx:76-77 | selecting accepted or in progress selects the same offers |
| JobOffersPage.Page.constructor | frontend/src/pages/offers/JobOffersPage.tsx:14-16 | the shown list starts as the store's list, the query empty |
| JobOffersPage.Page.SearchEffect | frontend/src/pages/offers/JobOffersPage.tsx:22-40 | the shown list becomes the search result for the current query |
| JobOffersPage.Page.HandleSearch | frontend/src/pages/offers/JobOffersPage.tsx:42-44 | stores the query; a new query shows its search result, the query already held leaves the shown result (a filter result, say) as it was |
| JobOffersPage.Page.ReceiveOffers | frontend/src/pages/offers/JobOffersPage.tsx:22-40 | a new store list is searched with the current query |
| JobOffersPage.Page.HandleApplyFilters | frontend/src/pages/offers/JobOffersPage.tsx:46-89 | the shown list is the full list filtered; the query is kept |
| CandidatesPage.Search | frontend/src/pages/candidates/CandidatesPage.tsx:22-39 | empty query gives every candidate; otherwise exactly those whose name, email or joined skills hold the query, in order, each match keeping every copy |
| CandidatesPage.EmailHitFound | frontend/src/pages/candidates/CandidatesPage.tsx:31 | a candidate whose email holds the query, ignoring case, is found |
| CandidatesPage.StagesMeanMatch | frontend/src/pages/candidates/CandidatesPage.tsx:48-67 | surviving the two stages is meeting every set filter clause |
| CandidatesPage.ApplyFilters | frontend/src/pages/candidates/CandidatesPage.tsx:45-70 | the step-by-step narrowing equals one filter by the whole chain |
| CandidatesPage.FilterResultSpec | frontend/src/pages/candidates/CandidatesPage.tsx:45-69 | result membership is the AND of the skills and experience clauses, order kept, no filters gives everything |
| CandidatesPage.FilterResultCounts | frontend/src/pages/candidates/CandidatesPage.tsx:45-69 | each row matching the filters survives with every copy it has in the list, every other row with none |
| CandidatesPage.SkillsFilterIgnoresCase | frontend/src/pages/candidates/CandidatesPage.tsx:48-56 | a candidate with skills React and Node passes the skills filter "react" |
| CandidatesPage.LocationIgnored | frontend/src/pages/candidates/CandidatesPage.tsx:58-61 | the location filter never changes the result |
| CandidatesPage.BlankSkillKeepsSkilled | frontend/src/pages/candidates/CandidatesPage.tsx:48-56 | the skills list `[""]` keeps exactly the candidates with at least one skill |
| CandidatesPage.Page.constructor | frontend/src/pages/candidates/CandidatesPage.tsx:14-16 | the shown list starts as the store's list, the query empty |
| CandidatesPage.Page.SearchEffect | frontend/src/pages/candidates/CandidatesPage.tsx:22-39 | the shown list becomes the search result for the current query |
| CandidatesPage.Page.HandleSearch | frontend/src/pages/candidates/CandidatesPage.tsx:41-43 | stores the query; a new query shows its search result, the query already held leaves the shown result (a filter result, say) as it was |
| CandidatesPage.Page.ReceiveCandidates | frontend/src/pages/candidates/CandidatesPage.tsx:22-39 | a new store list is searched with the current query |
| CandidatesPage.Page.HandleApplyFilters | frontend/src/pages/candidates/CandidatesPage.tsx:45-70 | the shown list is the full list filtered; the query is kept |
| FilesPage.Search | frontend/src/pages/files/FilesPage.tsx:56-64 | empty query gives every file; otherwise exactly those whose "name candidateName" holds the query, in order, each match keeping every copy |
| FilesPage.NarrowerQueryFindsMore | frontend/src/pages/files/FilesPage.tsx:58-59 | a file found by a query is found by any part of that query |
| FilesPage.FormatFileSize | frontend/src/pages/files/FilesPage.tsx:67-71 | " B" exactly below 1024 with the byte count, " KB" exactly below 1048576 with an amount in [1, 1024), " MB" otherwise with an amount of at least 1; amount times unit is the size |
| FilesPage.UnitMonotone | frontend/src/pages/files/FilesPage.tsx:68-70 | a larger size never gets a smaller unit |
| FilesPage.Page.constructor | frontend/src/pages/files/FilesPage.tsx:50-51 | the shown list starts as the file list, the query empty |
| FilesPage.Page.HandleSearch | frontend/src/pages/files/FilesPage.tsx:53-65 | stores the query and shows its search result at once |
| Formatters.Digits | frontend/src/utils/formatters.ts:23 | `replace(/\D/g, '')` leaves only digits and never lengthens |
| Formatters.FormatPhoneNumber | frontend/src/utils/formatters.ts:20-28 | empty input gives `''`; without exactly ten digits the input is returned as it was; with ten the result has 14 characters |
| Formatters.DigitsOfDigits | frontend/src/utils/formatters.ts:23 | a digit string is its own digits |
| Formatters.DigitsAfterSpace | frontend/src/utils/formatters.ts:27 | appending a space and digits appends just the digits |
| Formatters.DigitsOfGroup | frontend/src/utils/formatters.ts:27 | the grouped text's digits are the ten digits, in order |
| Formatters.FormatPhoneNumberGroups | frontend/src/utils/formatters.ts:23-27 | with ten digits: 14 characters, spaces at 2, 5, 8, 11, and dropping spaces gives back the cleaned digits |
| Formatters.FormatPhoneNumberIdempotent | frontend/src/utils/formatters.ts:20-28 | formatting a formatted number changes nothing |
| Formatters.GetStatusColor | frontend/src/utils/formatters.ts:30-49 | any code outside the seven gets the gray default |
| Formatters.StatusColorsDistinguish | frontend/src/utils/formatters.ts:30-49 | the four application statuses have four distinct non-default colours; accepted and open share one; closed is gray |
| Formatters.GetStatusLabel | frontend/src/utils/formatters.ts:51-70 | any code outside the seven is returned unchanged |
| Formatters.StatusOfLabel | frontend/src/utils/formatters.ts:51-70 | reading a label back gives a known code or the text itself |
| Formatters.StatusLabelRoundTrip | frontend/src/utils/formatters.ts:51-70 | each known code's French label reads back as that code, is not itself a code, and labelling is idempotent |
| Permissions.IsAdminOrReadOnly | core/permissions.py:3-7 | safe methods always pass; any other method passes exactly for a present admin user |
| Permissions.CreatedBy | core/permissions.py:13 | only offers have a creator attribute |
| Permissions.UserAttribute | core/permissions.py:19 | only candidates have a user attribute |
| Permissions.IsRecruiterOrAdmin | core/permissions.py:9-13 | admin always; otherwise exactly an offer created by the user; objects without a creator are refused |
| Permissions.IsOwnerOrAdminAsWritten | core/permissions.py:15-19 | admin always; a non-admin on a candidate passes exactly when it is theirs; on any other object the attribute read fails |
| Permissions.IsOwnerOrAdmin | core/permissions.py:15-19 | admin always; otherwise exactly when the object (or the entry's candidate) belongs to the user |
| Permissions.OwnerCheckAgreesOnCandidates | core/permissions.py:15-19 | on candidates the corrected check gives the written check's answer |
| Permissions.IsApplicationOwnerOrAdmin | core/permissions.py:21-25 | admin always; otherwise exactly when the user created the application's offer |
| Permissions.AdminPassesEverything | core/permissions.py:11-12 | an admin passes every object-level check for every object |
| Serializers.ToInternal | core/serializers.py:50-64 | `candidate_id` and `job_offer_id` become the relations; status and notes are kept; read-only fields are dropped |
| Serializers.ReadOnlyApplicationFieldsIgnored | core/serializers.py:64 | client values for id, date applied and score make no difference |
| Serializers.ValidateAsWritten | core/serializers.py:66-74 | rejects with the French duplicate message exactly when some stored application has the pair, otherwise returns the data unchanged |
| Serializers.UpdateRejectedAsWritten | core/serializers.py:66-73 | re-saving an application with its own pair is rejected |
| Serializers.Validate | core/serializers.py:66-74 | rejects exactly when another application has the pair; returns the data unchanged otherwise |
| Serializers.ValidateCreateAsWritten | core/serializers.py:66-74 | on creation the corrected check is the written one |
| Serializers.RunValidators | core/models.py:124 | the framework's unique-together check, which leaves out the instance being updated, refuses first with its own message; otherwise `validate()` decides |
| Serializers.CreateNeverReachesDuplicateMessage | core/serializers.py:66-74 | on a create the whole validation accepts exactly what the intended check accepts, and refuses only with the framework's message, never `validate()`'s |
| Serializers.UpdateRejectedByValidate | core/serializers.py:66-73 | an update keeping its own pair passes the framework's check and is then refused by `validate()` with the French message |
| Serializers.PairIndexUnique | core/models.py:124 | under the uniqueness constraint a pair occurs at one index |
| Serializers.ValidateAcceptsOwnPair | core/serializers.py:66-74 | with unique pairs, updating an application with its own pair is accepted |
| Serializers.CreateApplication | core/serializers.py:64 | the new row takes the pair, the status (pending by default) and the notes (empty by default, core/models.py:119), the server's id and date, and no score |
| Serializers.ValidatedInsertKeepsPairsUnique | core/serializers.py:66-74 | inserting validated data keeps every (candidate, offer) pair unique |
| Serializers.UpdateApplication | core/serializers.py:64 | an update keeps id, application date and score, writes the pair, and writes status and notes when sent, keeping the old ones otherwise |
| Serializers.UpdateApplicationIdempotent | core/serializers.py:64 | sending the same data twice updates as once |
| Serializers.PartialUpdateKeepsUnsent | core/serializers.py:64 | an update sending neither status nor notes changes only the pair |
| Serializers.SaveOffer | core/serializers.py:42 | the saved offer takes id, timestamps and creator from the server, the title from the payload, and is active unless the payload says otherwise (default true, core/models.py:93) |
| Serializers.ReadOnlyOfferFieldsIgnored | core/serializers.py:42 | client values for id, timestamps and creator make no difference |
| Serializers.ApplicationsCount | core/serializers.py:44-45 | the count never exceeds the number of applications |
| Serializers.ApplicationsCountZero | core/serializers.py:44-45 | the count is zero exactly when no application refers to the offer |
| Views.CandidateQueryset | core/views.py:24-27 | an admin lists all candidates; anyone else exactly their own |
| Views.ExperienceQueryset | core/views.py:33-34 | lists exactly the entries of the user's own candidate, for every role |
| Views.EducationQueryset | core/views.py:44-45 | lists exactly the entries of the user's own candidate, for every role |
| Views.JobOfferQueryset | core/views.py:56-59 | an admin lists all offers; anyone else exactly those they created |
| Views.ApplicationQueryset | core/views.py:76-79 | an admin lists all applications; anyone else exactly those to offers they created |
| Views.ListedRowsPassObjectChecks | core/views.py:22-79 | every listed row passes its viewset's object check, using the corrected owner check for experience and education entries |
| Views.OwnEntryFailsAsWritten | core/views.py:31-34 | a non-admin's own listed experience entry fails the written owner check and passes the corrected one |
| Views.CreateOffer | core/views.py:61-62 | the new offer is saved with the requester as creator and nothing else changes |
| Views.CreatedOfferIsTheirs | core/views.py:56-62 | the creator then sees the offer in their list and passes its object check |
| Views.RequesterCandidate | core/views.py:37 | the lookup fails exactly when the user has no candidate or several (DoesNotExist for none) and returns one of theirs otherwise |
| Views.OneToOneLookupNeverSeveral | core/views.py:37 | with `Candidate.user` one-to-one (core/models.py:37) the lookup never reports several profiles, only DoesNotExist |
| Views.CreateExperience | core/views.py:36-38 | the entry is appended, attached to the requester's candidate, and every other table is unchanged; the lookup's failure aborts the create |
| Views.CreateEducation | core/views.py:47-49 | the entry is appended, attached to the requester's candidate, and every other table is unchanged; the lookup's failure aborts the create |
| Views.CreatedExperienceIsListed | core/views.py:33-38 | a created entry appears in its creator's own list |
| Views.FindOffer | core/views.py:66 | finds an offer with the id when one exists in the list, and none otherwise |
| Views.OfferApplicationsSpec | core/views.py:64-69 | answers exactly for visible offers, with 404 otherwise and never 403; lists exactly the offer's applications in order, as many as its count |
| Views.StatusCounts | core/views.py:92-96 | one entry per status present, each the number of applications having it (at least one) |
| Views.GetStatistics | core/views.py:82-98 | 403 "Permission denied" for a non-admin; for an admin the candidate and offer totals and the per-status counts |
| Views.NoApplicationsNoStatuses | core/views.py:92-96 | without applications the per-status table is empty |

## Left out

- Network calls: the service calls become the `Outcome` parameter of each store method. The request payloads the stores send are not modelled.
- `localStorage` writes in the auth store are not modelled.
- Concurrency: each store operation is modelled as atomic. Interleaved calls and last-response-wins are not modelled.
- `new Date(...)` parsing is a parameter of the applications filter. `None` stands for an invalid date.
- `toFixed(1)` rendering in `formatFileSize`: only the unit and the exact quotient are modelled, not the rounded text.
- `toLowerCase` beyond ASCII and the Latin-1 capitals is not modelled. Other scripts are left unchanged.
- The offers page's `statusMap` is a plain object. Codes such as `constructor` would read inherited members; the model treats every code outside the four keys as passing through.
- Dates formatted by `formatDate` and `formatDateTime` (date-fns) are not modelled.
- Back-end rows keep only the columns the modelled code reads. Model field validation, file uploads and the user serializer are not modelled.
- `IsAdminOrReadOnly`: an anonymous request user is modelled as absent. Django's anonymous user object, which has no `role`, is not modelled.
- `statistics`: the dictionary is modelled as a map from status to count. Database grouping order is not modelled.
- RunValidators: the framework's message is written as recent Django REST framework releases word it; other releases may word it differently.
- `validate` on a partial update without `candidate` or `job_offer` raises `KeyError`. The model takes the validated data as complete.
- Presentation components, routing, form pages, the dashboard and settings pages are not modelled.

## Findings

| source | as written | input that shows it | evidently intended | confidence | as-written member | corrected member |
|---|---|---|---|---|---|---|
| core/permissions.py:19 | `IsOwnerOrAdmin` reads `obj.user`, but the experience and education viewsets (core/views.py:31,42) apply it to entries, which have a `candidate` and no `user` | a recruiter who owns candidate 1 opens their own experience entry of candidate 1: `AttributeError` instead of access | owner through `obj.candidate.user`, matching the entry querysets | medium, not executed | Permissions.IsOwnerOrAdminAsWritten, Views.OwnEntryFailsAsWritten | Permissions.IsOwnerOrAdmin, Views.ListedRowsPassObjectChecks |
| core/serializers.py:66-73 | `validate` looks for any application with the same candidate and offer, including the one being updated | a full update (PUT) of application A that keeps A's candidate and offer and changes only the status: rejected as a duplicate of A | exclude the instance being updated from the duplicate search | medium, not executed | Serializers.ValidateAsWritten, Serializers.UpdateRejectedAsWritten, Serializers.UpdateRejectedByValidate | Serializers.Validate, Serializers.ValidateAcceptsOwnPair |
