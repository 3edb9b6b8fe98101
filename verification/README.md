# Jira split app — a Dafny model

The split app carries unfinished work over to the next sprint. The project
page (`src/index.jsx`) suggests a next sprint, searches the issues of the
target sprint and lists those that can still be split. Once the user
confirms, it pushes one job per selected issue onto a queue.

The queue worker (`src/consumer.tsx`) handles one issue per job:
- It reads the issue and deducts one step of story points: 1 for an issue in
  "Pull Request", 0.5 otherwise.
- When points remain, it creates a clone that carries the remainder and moves
  the clone to the closed state.
- It then sets the original's points to the step.

The constants and the `pick` helper live in `src/configs.tsx`.

The model has four modules:

- `Json` (`json.dfy`): JSON values and issue `fields` objects. It also holds
  the JavaScript reading rules the app relies on: property access,
  optional chaining, truthiness, `Number` of a digit string, and the text
  of a template literal.
- `Configs` (`configs.dfy`): the deployment constants and `Pick`, with its
  specification proved (`PickSpec`) and its algebra (restriction,
  idempotence, key order and duplicates irrelevant).
- `Consumer` (`consumer.dfy`): the step, the remainder and the clone
  payload as functions, and the whole job as a specification function.
  - `Split` gives the store after the job, the mutations the backend
    accepted and the outcome, for every pattern of backend failures.
  - The class `IssueStore` holds the issues and the log of accepted
    mutations. Its methods model `getIssue`, `cloneIssue`,
    `changeStatusDoneIssue`, `updateIssue`, `handleSplit` and the queue
    listener. `HandleSplit` is proved to have exactly the effect `Split`
    describes.
  - Lemmas about `Split` state what the job guarantees:
    - It touches only the original and its clone.
    - A successful split creates a clone iff points remain. A failed
      create leaves no clone even when points remain.
    - Success leaves exactly the step on the original.
    - Failure never changes the original; it can leave behind a clone
      created before a later call failed.
    - The accepted calls are a prefix of the plan: create, close, update.
    - The store equals the replay of those calls.
- `SprintReview` (`sprint_review.dfy`): the project page.
  - Functions cover the sprint-number reading, the next-sprint suggestion,
    the two sprint selects, the issue filter and projection, the job
    payloads and the confirmation options.
  - The class `SprintReviewPage` holds the page's state hooks and the
    batches pushed to the queue.
  - `ListedIssueIsCloned` connects the page to the worker. Every listed issue
    has points remaining after its step. Its job ends with a clone carrying
    the remainder when three conditions hold: no backend call fails, the
    store still holds the fields the page listed, and the issue type is
    readable. The page never checks the issue type. A listed issue whose
    `issuetype` is missing or null makes its job end in `Failed(Malformed)`.
  - The page's truthiness tests are kept. `activeSprintNumber && ...` is 0
    when the active sprint is numbered 0. The next-sprint select then
    preselects the sprint whose id is 0 (`Preselects`). A next sprint id of
    0 keeps the "Split tasks" button disabled.

Backend failures are modelled as a `Faults` record, one flag per call. A
failed call stops the rest of the job, as a thrown error does in the source.
Reading `status.name` or `issuetype.subtask` through a missing or null field
is a TypeError in JavaScript; the model shows it as the outcome
`Failed(Malformed)`.

The clone's identifier comes from the backend, so it is a parameter (`newId`)
that must not name an existing issue.

The worker's clone has these limits, and the model has them too:
- It copies only the seven listed fields. The description is not copied,
  so no media is stripped from it.
- Its sprint is the first sprint of the original's sprint list, whatever
  that sprint's state. The worker does not look for the active sprint.
- It gets no "split from" link to the original.

## Model

| member | source | states |
|---|---|---|
| Configs.StepsOrdered | src/configs.tsx:8-9 | the pull-request step is larger than the QA step, and both are positive |
| Configs.Pick | src/configs.tsx:16-19 | the fold of per-key singletons, merged left to right; its contract is stated by `PickSpec` |
| Configs.PickSpec | src/configs.tsx:16-19 | `pick` keeps exactly the listed keys the object has, each with the object's value; absent keys do not appear |
| Configs.PickIsRestriction | src/configs.tsx:16-19 | `pick` equals the restriction of the object to the listed keys |
| Configs.PickIdempotent | src/configs.tsx:16-19 | picking the same keys twice changes nothing |
| Configs.PickDependsOnKeySetOnly | src/configs.tsx:16-19 | key lists with the same keys, in any order and with any duplicates, pick the same object |
| Json.DecimalRoundTrip | src/index.jsx:48 | `Number` of the decimal numeral of n is n |
| Json.LeadingZeroIgnored | src/index.jsx:48 | `Number` of a digit string ignores leading zeros |
| Json.TemplateText | src/consumer.tsx:117 | an undefined value interpolates as "undefined" and a string as itself |
| Consumer.FieldNamesDistinct | src/consumer.tsx:41-50 | the story-point and sprint field names differ from each other and from the copied keys; "summary" is copied |
| Consumer.Step | src/consumer.tsx:102-105 | the step is 1 iff the status name is "Pull Request" and 0.5 otherwise; it is always positive |
| Consumer.Points | src/consumer.tsx:108 | a numeric story-point field reads as its number, and a missing or null one as 0 |
| Consumer.Remainder | src/consumer.tsx:107-108 | remainder plus step equals the issue's points |
| Consumer.MissingPointsNoClone | src/consumer.tsx:107-110 | an issue without story points has a negative remainder and is never cloned |
| Consumer.IsSubtask | src/consumer.tsx:112 | the issue type's `subtask` flag is truthy; used by `CloneOverrides`, whose contract states when the sprint is set |
| Consumer.SplitSummary | src/consumer.tsx:117 | the summary ends in " - SPLIT": a string summary followed by it, a missing one as "undefined - SPLIT" |
| Consumer.FirstSprintId | src/consumer.tsx:114 | the sprint id is undefined when the sprint field is missing, null or an empty list; otherwise it is the `id` of the first sprint, undefined when that sprint is null |
| Consumer.CloneOverrides | src/consumer.tsx:111-118 | the overrides set the remainder and the " - SPLIT" summary; they carry the first sprint id iff the issue is not a subtask and that id is defined |
| Consumer.ClonePayload | src/consumer.tsx:38-51 | the clone's fields carry the remainder, the split summary, and the sprint exactly when the overrides do |
| Consumer.ClonePayloadCopies | src/consumer.tsx:41-50 | apart from the overridden fields, the clone has exactly the listed fields of the original, with the original's values |
| Consumer.Plan | src/consumer.tsx:110-125 | without failures a split makes create, close, update when points remain, and only update otherwise |
| Consumer.FinishUpdate | src/consumer.tsx:123-125 | the final update merges the step into the original, or fails and leaves the store as it was |
| Consumer.Split | src/consumer.tsx:99-126 | the job fails at fetch iff the fetch fails or the issue is unknown, and then changes and performs nothing |
| Consumer.SplitFetched | src/consumer.tsx:100-125 | a fetched issue fails as malformed iff its status is unreadable, or its issue type is unreadable when points remain; such a failure changes and performs nothing |
| Consumer.SplitTouchesOnlyOriginalAndClone | src/consumer.tsx:99-126 | a split changes no issue other than the original and adds none but the clone |
| Consumer.SplitSuccessSetsStep | src/consumer.tsx:123-125 | a successful split sets the original's points to the step and changes no other field |
| Consumer.SplitClonesIffRemainderPositive | src/consumer.tsx:107-121 | a successful split creates a clone iff points remain; any clone carries the clone payload |
| Consumer.SplitFailureKeepsOriginal | src/consumer.tsx:99-126 | a failed split leaves the original unchanged; its only trace is a clone created before a later failure |
| Consumer.SplitFollowsPlan | src/consumer.tsx:99-126 | the accepted calls are the plan on success and a strict prefix of it on failure; a failed split never updates |
| Consumer.SplitMatchesReplay | src/consumer.tsx:99-126 | the store after a split is the replay of the calls the backend accepted |
| Consumer.QaIssueWithTwoPoints | src/consumer.tsx:102-125 | a QA issue with 2 points gives a clone with 1.5 and an original with 0.5 |
| Consumer.PullRequestIssueWithOnePoint | src/consumer.tsx:102-125 | a "Pull Request" issue with 1 point is not cloned and is set to 1 |
| Consumer.IssueStore.GetIssue | src/consumer.tsx:7-12 | the issue is returned iff the request succeeds and the issue exists |
| Consumer.IssueStore.CloneIssue | src/consumer.tsx:38-72 | on success a new issue with the picked fields and the overrides is stored and logged; on failure nothing changes |
| Consumer.IssueStore.ChangeStatusDone | src/consumer.tsx:74-97 | on success the transition with id "51" is logged; the fields never change |
| Consumer.IssueStore.UpdateIssue | src/consumer.tsx:14-36 | on success the patch is merged into the issue and logged; an unknown issue or a failure changes nothing |
| Consumer.IssueStore.CloneAndClose | src/consumer.tsx:111-120 | the clone is created and then closed; a failed creation changes nothing, and a failed close leaves the created clone |
| Consumer.IssueStore.HandleSplit | src/consumer.tsx:99-126 | the job's calls, run in order, give exactly the store, log and outcome of `Split` |
| Consumer.IssueStore.OnEvent | src/consumer.tsx:128-137 | the listener splits the payload's issue and swallows the outcome |
| SprintReview.Filter | src/index.jsx:55-58 | the result has exactly the elements of the list that satisfy the predicate |
| SprintReview.FilterAppend | src/index.jsx:91-103 | filtering keeps list order |
| SprintReview.FilterPartition | src/index.jsx:91-103 | filtering by a condition and by its negation splits the list |
| SprintReview.FindFirst | src/index.jsx:47 | the index found is the first whose element satisfies the predicate; none means no element does |
| SprintReview.RunEnd | src/index.jsx:48 | the run from i ends at the first non-digit or at the end of the text |
| SprintReview.DigitRun | src/index.jsx:48 | the span found is the first maximal run of digits; none means the text has no digit |
| SprintReview.SprintNumber | src/index.jsx:48 | a name has no sprint number (NaN) iff it contains no digit |
| SprintReview.RunEndAt | src/index.jsx:48 | a run of digits from i that stops at end ends at end |
| SprintReview.DigitRunAt | src/index.jsx:48 | when no digit precedes a maximal run, that run is the one `/\d+/` finds |
| SprintReview.DigitRunOfName | src/index.jsx:48 | the first digit run of prefix, digits, suffix is the digits |
| SprintReview.SprintNumberOfDigits | src/index.jsx:48 | a name's number is the value of its first run of digits |
| SprintReview.SprintNumberOfName | src/index.jsx:48-49 | a name whose first digits spell n has sprint number n |
| SprintReview.SprintNumberLeadingZero | src/index.jsx:48 | a zero-padded number such as "Sprint 07" reads as the number itself |
| SprintReview.ActiveSprintNumber | src/index.jsx:47-48 | the number is that of the first active sprint's name; there is none without an active sprint |
| SprintReview.SuggestNextSprintId | src/index.jsx:49 | the suggestion is the first future sprint numbered one past the active sprint; such a sprint is always suggested when the active number is positive |
| SprintReview.TargetSprintOptions | src/index.jsx:91-95 | the target options; `SprintOptionsPartition` states them exactly |
| SprintReview.Preselects | src/index.jsx:49 | whether a next-sprint id starts selected, including the `0 && ...` case; stated by `OnlySuggestionIsPreselected` and `ZeroNumberPreselectsIdZero` |
| SprintReview.NextSprintOptions | src/index.jsx:98-103 | the next-sprint options; `SprintOptionsPartition` and the preselection lemmas state them |
| SprintReview.FilterSingleton | src/index.jsx:92 | a single element is kept iff it satisfies the predicate; with `FilterAppend` this fixes every filtered list |
| SprintReview.SprintOptionsPartition | src/index.jsx:91-103 | option i of the target select is the i-th active sprint, preselected; option i of the next select is the i-th non-active sprint; together they have one option per sprint |
| SprintReview.SuggestionIsPreselected | src/index.jsx:99-103 | the suggested sprint is offered as a next sprint and is preselected |
| SprintReview.OnlySuggestionIsPreselected | src/index.jsx:102 | unless the active sprint is numbered 0, a next-sprint option starts selected iff it is the suggested sprint |
| SprintReview.ZeroNumberPreselectsIdZero | src/index.jsx:49 | an active sprint numbered 0 suggests nothing, and exactly the next-sprint options with id 0 start selected |
| SprintReview.Exceeds | src/index.jsx:57-58 | the `>` comparison of a story-point value; with `IsCandidate` stated by `CandidateIffRemainderPositive` |
| SprintReview.IsCandidate | src/index.jsx:55-58 | the page's filter; `CandidateIffRemainderPositive` states it |
| SprintReview.Project | src/index.jsx:59-67 | the row for a kept issue; `ProjectionKeepsRemainder` states what it keeps |
| SprintReview.ListedIssues | src/index.jsx:54-68 | the listed rows; `ListedIssuesExact`, `ListedIssuesCons`, `ListedIssuesMembership`, `ListedIssuesKeepOrder` and `ListedIssuesHaveRemainder` state them |
| SprintReview.ListedIssuesExact | src/index.jsx:54-68 | one row per kept search hit: as many rows as kept hits, row i being the projection of the i-th kept hit |
| SprintReview.ListedIssuesCons | src/index.jsx:54-68 | hit by hit, the first hit adds exactly one row when it passes the filter and none otherwise, before the rows of the rest |
| SprintReview.CandidateIffRemainderPositive | src/index.jsx:55-58 | the page lists an issue iff the worker will find points remaining after the step |
| SprintReview.ProjectionKeepsRemainder | src/index.jsx:59-67 | the displayed fields give the same step and remainder as the full issue |
| SprintReview.ListedIssuesMembership | src/index.jsx:54-68 | a row is listed iff it is the projection of a search hit that passes the filter |
| SprintReview.ListedIssuesKeepOrder | src/index.jsx:54-68 | listing keeps the order of the search result |
| SprintReview.ListedIssuesHaveRemainder | src/index.jsx:54-68 | every listed issue has points remaining after its step |
| SprintReview.ListedIssueIsCloned | src/index.jsx:54-58 | with no backend failure, the store still holding the listed fields and a readable issue type, a listed issue's job succeeds, clones the remainder and sets the original to the step |
| SprintReview.Payloads | src/index.jsx:78 | one payload per selected key, in order, carrying that key |
| SprintReview.PayloadsRoundTrip | src/index.jsx:76-80 | payloads and keys are inverse to each other |
| SprintReview.ConfirmOptions | src/index.jsx:175-176 | one preselected option per listed issue, valued by its key |
| SprintReview.DefaultSelectionIsListed | src/index.jsx:175-176 | confirming the options as offered submits every listed key, in list order |
| SprintReview.SprintReviewPage.constructor | src/index.jsx:41-45 | the page starts with no list, no next sprint, both modals closed and nothing pushed |
| SprintReview.SprintReviewPage.HandleSubmit | src/index.jsx:51-69 | the next sprint is recorded; the list becomes the filtered projection unless an issue has no readable status, in which case it is kept as it was |
| SprintReview.SprintReviewPage.SplitDisabled | src/index.jsx:84 | the button is disabled while the next sprint id is falsy; `HandleConfirmSplit` states its effect |
| SprintReview.SprintReviewPage.HandleConfirmSplit | src/index.jsx:72-84 | the confirm modal opens only when the next sprint id is truthy |
| SprintReview.SprintReviewPage.HandleConfirmSplitTask | src/index.jsx:76-81 | the confirm modal closes, one batch of payloads is pushed, and the completed modal opens |
| SprintReview.SprintReviewPage.CloseConfirm | src/index.jsx:161 | closing the confirm modal changes nothing else |
| SprintReview.SprintReviewPage.CloseCompleted | src/index.jsx:163 | closing the completed modal changes nothing else |

## Left out

- HTTP requests, response bodies, headers and status codes are not modelled. Each backend call becomes an operation on the store that succeeds or fails according to a `Faults` flag.
- Console logging and the error text of thrown errors are not modelled.
- The JQL search (`searchIssues`) and the sprint listing (`getBoardSprints`) are parameters. The page receives their results as plain values.
- Queue delivery is not modelled: at-least-once delivery, concurrency between jobs, and repeated delivery of a job. Each job is a separate call on the store.
- JSX rendering is not modelled, including the issue table, the icons, and rendering the confirm modal while the list is still undefined (which would throw).
- Sprints loading asynchronously is not modelled. The page's sprints are a fixed list.
- Issue ids and keys are one identifier. The source reads the issue by key and updates it by `issue.id`; the model uses the same name for both.
- Consumer.Points: story points that are neither a number nor null are read as 0. JavaScript's `Number`/`>` coercion of strings and booleans is not modelled; the page's filter treats them the same way, so the two agree.
- Json.TemplateText: the text of a non-integral number and of an array is not modelled. The clone summary only relies on it for strings and undefined.
- Story points are exact reals, not IEEE doubles. The rounding of the clone's remainder is not modelled: a QA issue with 0.7 points sends `0.7 - 0.5 = 0.19999999999999996`, while `ClonePayload` stores 0.2. Whether the `> 0` branch is taken is unaffected, because for doubles `a - b > 0` iff `a > b`.
- NaN is not a `Value`. A sprint name without digits is `None`, which compares unequal to everything, as NaN does.
- The clone's identifier and the transition's effect on workflow state belong to the backend. The identifier is a parameter, and the store does not keep workflow state.
- Pick: the `in` operator also sees inherited properties of `obj`. The model's objects have own properties only.
