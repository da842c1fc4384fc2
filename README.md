# GitHub Profile Visualizer: request lifecycle, normalisation and chart projection

This project models the core shared by the three data-driven views of the
GitHub Profile Visualizer browser client: Home (profile search),
RepositoryItemDetails (one repository) and Analysis (commit statistics).
The model covers four things:

- **The request-status state machine.** Each view is a class. Its fields are
  `apiStatus` (`Initial | InProgress | Success | Failure`), the payload it
  keeps and its input. Each `setState` step is a method with a `modifies`
  clause:
  - the mount or search guard (`Mount`, `Search`);
  - the start of a fetch (`Start`, and for Analysis also `TryAgain`);
  - the three ways a request settles (`ResolveOk(data)`, `ResolveNotOk`,
    `Throw`).

  Each `await` splits the source routine into separate method calls. A
  settling method requires `apiStatus == InProgress`: a response only
  arrives for a request that was issued and has not settled yet. Each class
  keeps an invariant `Valid()`. For Home and RepositoryItemDetails, whose
  payload starts as `null`, its central clause is "SUCCESS implies the
  payload is present". The analysis list starts as `{}` and is never `null`;
  its invariant says that before any request the list is still `{}` and the
  status is INITIAL, or FAILURE for a missing username.
- **Response normalisation** in the repository view (`Normalize`).
  - The name, the description and the four counters are copied.
  - `languages` and `contributors` are mapped element by element.
  - A list that is absent or `null` becomes `[]`.
- **The chart projection** in the analysis view:
  `Object.entries(counts).map(...).sort(descendingSort)` and its
  `slice(0, 10)`.
  - The sort is modelled as a stable insertion sort that uses the source's
    comparator.
  - The model proves the result has one point per entry (a permutation),
    is in non-increasing order of value, and keeps ties in input order.
  - `ProjectIsTheStableSort` proves that any stable descending sort yields
    exactly this series, so the conclusions do not depend on the sort
    algorithm the JavaScript engine uses.
- **Render-branch selection** for each view. It is a total function of the
  username guard and the status.

Optional JSON properties are typed. `Field<T>` is `Undefined | Null |
Present(v)`, which keeps apart the cases the code distinguishes: a
destructuring default applies only to `undefined`, while `x || []` applies to
`null` as well. The username guard `username === '' || username === undefined`
is `Lifecycle.UsernameMissing`. A `null` username passes that guard.
`String.prototype.trim` is modelled with the ECMAScript WhiteSpace and
LineTerminator code points (module `JsString`).

The intended design has a separate no-input view for a missing username, a
fetch start that discards the previous payload, and a normalised profile
record. The code differs on each point, and the model follows the code:

- **Missing username.** A missing username does not skip the lifecycle. In
  both the repository and analysis views it sets `FAILURE` directly from
  `INITIAL`, without passing through `IN_PROGRESS`.
  - The repository view then shows its failure view.
  - The analysis view shows "No Data Found" whatever the status.
- **Keeping the previous payload.** Starting a fetch does not discard the
  payload, and a failure does not clear it. The previously received payload
  is kept.
- **The profile is stored raw.** Home stores the profile payload as
  received and reads `avatar_url`, `public_repos` and the other properties
  directly. It has no renaming step.
- **`INITIAL` renders nothing.** In the repository and analysis views an
  `INITIAL` status with a present username renders `null` (`NoView`).

## Model

| member | source | states |
|---|---|---|
| ChartProjection.DescendingSort | src/components/Analysis/index.js:55 | the comparator is positive exactly when `a` has the smaller value, negative exactly when it has the larger one, and zero exactly on a tie |
| ChartProjection.Entries | src/components/Analysis/index.js:63-64 | one `{name, value}` point per entry, in entry order, copying the key and the count |
| ChartProjection.Insert | src/components/Analysis/index.js:65 | one step of the stable sort adds exactly one element; it goes in front only when it sorts strictly before the current head |
| ChartProjection.SortDescending | src/components/Analysis/index.js:65 | the sort keeps the length of its input |
| ChartProjection.InsertKeepsSorted | src/components/Analysis/index.js:65 | inserting into a sorted series keeps it sorted by `descendingSort` |
| ChartProjection.SortIsSorted | src/components/Analysis/index.js:55-65 | the sorted series has no adjacent pair that the comparator would swap |
| ChartProjection.SortedPairwise | src/components/Analysis/index.js:65 | a sorted series is non-increasing in value for every pair of positions, not only adjacent ones |
| ChartProjection.SortIsPermutation | src/components/Analysis/index.js:65 | the sorted series is a rearrangement (same multiset) of its input |
| ChartProjection.SortIsStable | src/components/Analysis/index.js:55-65 | for every value, the entries with that value appear in the sorted series in their input order |
| ChartProjection.Project | src/components/Analysis/index.js:63-65 | `quarterCommitSlicedData` has one point per entry and is a permutation of the entries; it is non-increasing in value for all pairs; ties keep their `Object.entries` order |
| ChartProjection.ProjectIsTheStableSort | src/components/Analysis/index.js:63-65 | any series that is sorted by the comparator and keeps every tie group in input order equals `Project(counts)`, so the series does not depend on the engine's sort algorithm |
| ChartProjection.Slice | src/components/Analysis/index.js:93 | `slice(0, end)` is a prefix of the series, of length `min(end, n)` |
| ChartProjection.TruncationKeepsLargest | src/components/Analysis/index.js:93 | no entry cut off by the truncation has a larger value than any entry kept |
| ChartProjection.TieKeepsInputOrder | src/components/Analysis/index.js:55-65 | Go 80, JS 120, Rust 120 projects to JS, Rust, Go: the tie keeps input order |
| ChartProjection.SortedInputUnchanged | src/components/Analysis/index.js:63-93 | an input already in descending order is projected unchanged, and the limit of ten keeps all three entries |
| JsString.SkipWhiteSpace | src/components/Home/index.js:29 | the scan stops at the first character from `k` on that is not white space, or at the end; everything it passes is white space |
| JsString.SkipWhiteSpaceBack | src/components/Home/index.js:29 | the backward scan stops just past the last character before `e` that is not white space, or at `k`; everything it passes is white space |
| JsString.Trim | src/components/Home/index.js:29 | `trim()` is the slice of the input that starts after its leading white space; everything dropped before and after it is white space; a non-empty result neither starts nor ends with white space, which fixes the result |
| JsString.TrimEmptyIffAllWhiteSpace | src/components/Home/index.js:29 | `s.trim() === ''` holds exactly when every character of `s` is white space |
| Home.IsBlank | src/components/Home/index.js:29 | the guard `searchInput.trim() === ''` holds exactly for the inputs that are empty or consist only of white space |
| Home.RenderSuccess | src/components/Home/index.js:66-114 | every profile field is shown exactly as received; the title heading appears exactly when `title` is present and non-empty |
| Home.RenderBody | src/components/Home/index.js:116-134 | the four statuses map one-to-one onto hero, loader, failure and success |
| Home.Home.constructor | src/components/Home/index.js:21 | the initial state has an empty input, `INITIAL` and no profile |
| Home.Home.ChangeInput | src/components/Home/index.js:23-25 | only `searchInput` changes |
| Home.Home.Search | src/components/Home/index.js:27-35 | a blank input changes nothing and issues nothing; any other input is given untrimmed to `changeUserName` and to the request, and the status becomes `IN_PROGRESS`; `searchInput` and `profile` never change; the invariant is kept |
| Home.Home.ResolveOk | src/components/Home/index.js:36-40 | the profile becomes the payload and the status `SUCCESS` together |
| Home.Home.ResolveNotOk | src/components/Home/index.js:41-43 | the status becomes `FAILURE`; the profile and the input are kept |
| Home.Home.Throw | src/components/Home/index.js:44-46 | an exception is handled like a non-ok response |
| Home.Home.SuccessCard | src/components/Home/index.js:66-80 | in the success branch the profile is present, so the destructuring of `profile` cannot fail |
| Lifecycle.UsernameMissing | src/components/RepositoryItemDetails/index.js:26 | the missing-username guard (the empty string or `undefined`) holds for an undefined username and for the empty string; a `null` username and every non-empty string pass it |
| RepositoryItemDetails.OrEmpty | src/components/RepositoryItemDetails/index.js:54-58 | the empty-list fallback gives the list when it is present and `[]` when it is absent or `null` |
| RepositoryItemDetails.MapLanguages | src/components/RepositoryItemDetails/index.js:54-57 | the mapping keeps length and order and copies each `name` and `value` |
| RepositoryItemDetails.MapContributors | src/components/RepositoryItemDetails/index.js:58-60 | the mapping keeps length and order, and each `avatarUrl` is the source's `avatar_url` |
| RepositoryItemDetails.Normalize | src/components/RepositoryItemDetails/index.js:47-61 | name, description and the four counters are copied; a missing or `null` list becomes `[]`; both lists keep length, order and element fields |
| RepositoryItemDetails.Render | src/components/RepositoryItemDetails/index.js:166-190 | a missing username gives the failure view whatever the status; otherwise SUCCESS, FAILURE, IN_PROGRESS and INITIAL give success, failure, loader and nothing; neither the hero nor the no-data view is ever shown |
| RepositoryItemDetails.RepositoryItemDetails.constructor | src/components/RepositoryItemDetails/index.js:19-22 | the initial state is `INITIAL` with no record |
| RepositoryItemDetails.RepositoryItemDetails.Mount | src/components/RepositoryItemDetails/index.js:24-31 | a missing username sets `FAILURE` and issues no request; any other username issues exactly one and sets `IN_PROGRESS`; the record is kept |
| RepositoryItemDetails.RepositoryItemDetails.Start | src/components/RepositoryItemDetails/index.js:33-35 | starting a fetch sets `IN_PROGRESS`, counts one request and keeps the record |
| RepositoryItemDetails.RepositoryItemDetails.ResolveOk | src/components/RepositoryItemDetails/index.js:41-66 | the normalised record and `SUCCESS` are set together |
| RepositoryItemDetails.RepositoryItemDetails.ResolveNotOk | src/components/RepositoryItemDetails/index.js:67-69 | the status becomes `FAILURE` and the record is kept |
| RepositoryItemDetails.RepositoryItemDetails.Throw | src/components/RepositoryItemDetails/index.js:70-72 | an exception is handled like a non-ok response |
| RepositoryItemDetails.RepositoryItemDetails.View | src/components/RepositoryItemDetails/index.js:166-190 | whenever the success view is chosen, the record it destructures is present |
| Analysis.QuarterCommitSeries | src/components/Analysis/index.js:59-65 | a missing or `null` `quarterCommitCount` gives an empty series; a present one gives the sorted, stable permutation of its entries |
| Analysis.RenderSuccessView | src/components/Analysis/index.js:57-98 | the view fails exactly when `user` is `null`; a missing `user` gives an undefined heading and avatar; three charts get the identical full series; "Commits Per Repo" gets a prefix of it of length `min(10, n)` |
| Analysis.EmptySummaryRenders | src/components/Analysis/index.js:59-63 | the initial `{}` renders with an undefined heading and four empty charts |
| Analysis.Render | src/components/Analysis/index.js:125-168 | exactly a missing username gives No Data Found, never the loader; otherwise SUCCESS, FAILURE, IN_PROGRESS and INITIAL give success, failure, loader and nothing |
| Analysis.Analysis.constructor | src/components/Analysis/index.js:20 | the initial state is `{}` with `INITIAL` |
| Analysis.Analysis.Mount | src/components/Analysis/index.js:22-29 | a missing username sets `FAILURE` and issues no request; any other username issues exactly one and sets `IN_PROGRESS`; the list is kept |
| Analysis.Analysis.Start | src/components/Analysis/index.js:31-33 | starting a fetch sets `IN_PROGRESS`, counts one request and keeps the list |
| Analysis.Analysis.TryAgain | src/components/Analysis/index.js:100-102 | Try Again runs the same fetch: `IN_PROGRESS`, one more request, the list kept |
| Analysis.Analysis.ResolveOk | src/components/Analysis/index.js:41-46 | `analysisList` becomes the payload and the status `SUCCESS` |
| Analysis.Analysis.ResolveNotOk | src/components/Analysis/index.js:47-49 | the status becomes `FAILURE` and the list is kept |
| Analysis.Analysis.Throw | src/components/Analysis/index.js:50-52 | an exception is handled like a non-ok response |

## Left out

- The Header component: it is presentation only. It reads the browser location and picks CSS classes.
- The JSX markup, image URLs, CSS classes, the loader spinner and the chart, list and contributor child components: the model stops at the branch chosen and the data handed to the children.
- The repository success view's own destructuring defaults (`languages = []`, `contributors = []`) and the `description &&` guard: they are markup over a record whose lists `Normalize` already guarantees.
- `fetch`, `response.json()`, the URL templates, `repoName` (used only in the URL) and the API key from `process.env`: a response is an event that carries a payload.
- The React `UsernameContext`: its `changeUserName` calls are recorded in the `userNameChanges` log.
- Async interleaving: the settling methods require `IN_PROGRESS`, so a stale response arriving after a retry is not modelled.
- The `self.renderX ? self.renderX() : this.renderX()` lookups: `self` is the browser's global object, which has no such member, so the model uses the component's own render method.
- Non-integer, non-numeric or `NaN` counts: counts are mathematical integers and the comparator is exact.
- Payloads of the wrong JSON type are not modelled. Examples are a truthy non-array `languages`, a `null` element inside a list, or a JSON body that is `null`. In the repository view such a payload makes the normalisation throw inside the `try`, so the result is `FAILURE`. In Home a `null` body does not throw: it is stored as `profile` with SUCCESS, and only the destructuring in `renderSuccess` crashes. Payloads are typed as non-null values, and that typing is what makes Home's invariant "SUCCESS implies the profile is present" hold. In the analysis view a `null` body makes the destructuring during render crash.
- The engine's key order for `Object.entries`: integer-like keys come first in ascending order. The model takes the entries in the order it is given. Duplicate keys cannot occur in a JSON object and are not excluded.
- The engine's sort algorithm: `ProjectIsTheStableSort` shows that every stable descending sort yields the same series. Engines whose sort is not stable are not modelled.
- Home.Home.SuccessCard: states only that the profile is present and that the name and login come from it; the other fields are stated by `Home.RenderSuccess`.
- ChartProjection.SortDescending: its own contract states only the length; sortedness, permutation and stability are the lemmas `SortIsSorted`, `SortIsPermutation` and `SortIsStable`.
