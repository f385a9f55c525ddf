# FeasAI business-plan wizard: a Dafny model of its core

FeasAI walks a signed-in user through a multi-step form that builds a
business plan. It then asks a generative model for a feasibility report and
shows it on a results page: the markdown report, the score as whole stars,
and three progress bars. Separately, components/ResultVisuals.tsx defines
three result widgets that none of the application's pages renders: a star
rating with half stars, a GO/NO-GO card and a risk pie chart. This project
models the logic under that flow, and those widgets:

- **Document store** (`Models`): Users are keyed by their Clerk id, which
  the schema declares unique. BusinessPlans are keyed by ObjectId. Each plan
  holds its owner's User `_id` and the optional string fields of the schema.
  `Store.Valid()` states the store invariants:
  - every id is below the id counter;
  - user `_id`s are distinct;
  - the required user paths are non-empty;
  - every plan's owner is a stored user.
- **Route handlers**: each one is a module-level method that takes a
  `Store` object and a `DbFault` value. The `DbFault` value says whether
  connecting or writing throws. The three handlers that call `auth()` also
  take the session's Clerk id, which is `None` when there is no session.
  The save-user route calls no `auth()`, so it and `saveUserToDB` take no
  session. Each handler's contract gives the response of every early return
  in the handler's order; `SaveUserToDb` returns whether it threw. Each
  contract also states the whole new store: what changes and that nothing
  else does.
  - Plan creation (`PlanCreate.Post`).
  - Partial-merge update (`PlanUpdate.Patch`, built on `Models.Merge`).
  - User registration: `SaveUser.Post` validates the body, and
    `UserRegistry.SaveUserToDb` inserts the user if absent.
  - Report generation (`GenerateAnalysis.Post`): an owner-scoped gate
    (`Gate`), then the generated text is repaired, parsed, stored and
    returned.
- **Response repair** (`AnalysisRepair`):
  - Stripping a "```json" wrapper. This follows the bounds rules of
    JavaScript `substring`, which clamps and swaps them, and `trim`, with
    the full ECMAScript whitespace set (`JsString`). Lengths and positions
    are counted in code points, not in UTF-16 code units (see "Left out").
  - The `JSON.parse` reviver that escapes backslashes and double quotes in
    every `reportMarkdown` string. It is modelled over a JSON tree
    (`JsonValue`) together with `JSON.parse`'s bottom-up walk.
  - Its inverse (`Unescape`, `Restore`), which shows that no information is
    lost.
- **Home page** (`Homepage`): `handleGetStarted` as a class with
  `isLoading`, `error`, local storage, the current route and an ordered log
  of effects. It has two phases: `Begin` runs before the request and
  `Settle` after it. The `fetch` result and the outcome of the
  `localStorage.setItem` call are inputs.
- **Redux slice** (`PlanSlice`): the two case reducers mutate a draft. The
  exported reducer is a pure function with its laws.
- **Result widgets** (`ResultVisuals`): the star counts, the GO test and the
  cyclic colour index, in exact `real` arithmetic.

Points where the code does less, or other, than a reader might expect from
the application's purpose; the model follows the code:

- The report endpoint makes one generation request. No second "verdict"
  request is made, and no verdict is merged into the stored report.
- Registration inserts a user only when none exists. It never updates the
  email or name of an existing user.
- The budget is a single free-text string field, as the schema has it,
  not a structured amount.
- Nothing checks the parsed report's shape or score range. The model
  returns whatever the parse yields.
- The reviver runs after `JSON.parse` has decoded each string, so it does
  not repair the text before parsing. It adds backslashes to the decoded
  markdown, and those backslashes reach both the stored and the returned
  object. `AnalysisRepair.EscapeUnchangedIff` states exactly when the
  markdown comes back altered.
- The update endpoint does not check who owns the plan.
  `PlanUpdate.Patch` succeeds for any signed-in caller and any existing
  plan.

Inputs that come from outside are parameters:

- the session (the Clerk user id);
- database faults;
- the generated text, or `None` when generation fails;
- `JSON.parse` without the reviver (`parse: string -> Option<Json>`);
- `JSON.stringify` (`serialise`);
- the settled `fetch` result on the home page, and whether its
  `localStorage.setItem` call stores the id or throws.

## Model

| member | source | states |
|---|---|---|
| `JsString.Trim` | app/api/generate-analysis/route.ts:54 | `trim` removes only ECMAScript whitespace, from both ends. The result is the contiguous middle part and does not start or end with whitespace. |
| `JsString.TrimIdempotent` | app/api/generate-analysis/route.ts:54 | Trimming twice gives the same as trimming once. |
| `JsString.Substring` | app/api/generate-analysis/route.ts:54 | `substring(a, b)` is `s[a..b]` for in-range ordered bounds, and `s[b..a]` when the bounds are reversed. |
| `JsString.SubstringSymmetric` | app/api/generate-analysis/route.ts:54 | Swapping the two arguments of `substring` never changes its result. |
| `JsString.StartsWith` | app/api/generate-analysis/route.ts:53 | `startsWith(prefix)` holds exactly when the prefix fits and the text begins with exactly those characters. |
| `JsString.ToUpperAscii` | components/ResultVisuals.tsx:6 | Upper-casing keeps the length and maps each lower-case ASCII letter to its capital. |
| `AnalysisRepair.StripFence` | app/api/generate-analysis/route.ts:53-55 | Text not starting with "```json" is returned unchanged. Fenced text comes back trimmed, and at least 10 characters shorter when it has 10 or more. |
| `AnalysisRepair.StripFenceLong` | app/api/generate-analysis/route.ts:53-54 | For fenced text of length at least 10, the result is the trim of characters [7, len-3). |
| `AnalysisRepair.StripFenceWrapped` | app/api/generate-analysis/route.ts:53-54 | "```json" + body + any three characters gives trim(body). The last three characters are dropped without being checked. |
| `AnalysisRepair.StripFenceShort` | app/api/generate-analysis/route.ts:54 | For fenced text of 7 to 9 characters, the bounds swap and the result is the trim of characters [len-3, 7). |
| `AnalysisRepair.StripBareFence` | app/api/generate-analysis/route.ts:54 | The bare fence "```json" turns into "son". |
| `AnalysisRepair.ReplaceAll` | app/api/generate-analysis/route.ts:63 | `replace(/c/g, rep)`: a string without `c` is unchanged, and a replacement without `c` leaves no `c` behind. A non-empty replacement never shortens the string. See `ReplaceAllAppend` and `EscapeIsOnePass` for how the replacement composes. |
| `AnalysisRepair.Escape` | app/api/generate-analysis/route.ts:63 | The chained `replace` calls as written. A string with no backslash and no double quote is unchanged, and the result is never shorter. See `EscapeIsOnePass`, `EscapeUnchangedIff`, `UnescapeEscape` and `EscapeInjective`. |
| `AnalysisRepair.EscapeIsOnePass` | app/api/generate-analysis/route.ts:63 | The two chained `replace` calls equal one character-by-character pass that maps `\` to `\\` and `"` to `\"`. |
| `AnalysisRepair.EscapeLength` | app/api/generate-analysis/route.ts:63 | Output length = input length + number of backslashes + number of double quotes. |
| `AnalysisRepair.EscapeUnchangedIff` | app/api/generate-analysis/route.ts:63 | The escape leaves a string unchanged if and only if it has no backslash and no double quote. |
| `AnalysisRepair.UnescapeEscape` | app/api/generate-analysis/route.ts:63 | A left-to-right unescape of `\\` and `\"` recovers the original string. |
| `AnalysisRepair.EscapeInjective` | app/api/generate-analysis/route.ts:63 | Distinct strings escape to distinct strings. |
| `AnalysisRepair.ReportReviver` | app/api/generate-analysis/route.ts:61-66 | Values under any other key, and non-string values under "reportMarkdown", are returned as they are. A "reportMarkdown" string becomes its one-pass escape: each `\` becomes `\\` and each `"` becomes `\"`. Unescaping it gives back the original. |
| `AnalysisRepair.IndexKeyNotReportKey` | app/api/generate-analysis/route.ts:62 | The key given to the reviver for an array element is never "reportMarkdown". |
| `JsonValue.IndexKey` | app/api/generate-analysis/route.ts:61 | An array element's key is a non-empty string of decimal digits. |
| `AnalysisRepair.Internalize` | app/api/generate-analysis/route.ts:61-66 | The walk keeps the kind of every value, the length of every array, and the keys and their order in every object. Scalars pass through. |
| `AnalysisRepair.ParseWithReviver` | app/api/generate-analysis/route.ts:61-66 | Calling the reviver on the root, under the empty key, changes nothing after the walk. |
| `AnalysisRepair.RestoreInternalize` | app/api/generate-analysis/route.ts:61-66 | Unescaping every "reportMarkdown" string of the revived tree gives back the parsed tree, at any depth. |
| `AnalysisRepair.InternalizeUnchangedIff` | app/api/generate-analysis/route.ts:61-66 | The reviver leaves the tree unchanged if and only if no "reportMarkdown" string contains `\` or `"`. Other keys, non-string values under that key, and array elements pass through. |
| `Models.Merge` | app/api/businessplan/update/route.ts:26-30 | After `$set`, every named field has its new value and every other field keeps its value or stays absent. The owner is unchanged. |
| `Models.MergeIdempotent` | app/api/businessplan/update/route.ts:28 | Applying the same updateData twice stores the same record as applying it once. |
| `Models.MergeCompose` | app/api/businessplan/update/route.ts:28 | Two updates in a row equal one update in which the later values win field by field. |
| `Models.MergeEmpty` | app/api/businessplan/update/route.ts:19-28 | An empty `{}` passes the check and changes nothing. |
| `Models.Store.constructor` | lib/models/Business.ts:3-38 | An empty store satisfies the store invariants. |
| `Models.Store.NewObjectId` | app/api/businessplan/create/route.ts:26-27 | A new ObjectId is neither a plan key nor a user `_id`, and the store invariants still hold. |
| `PlanUpdate.Patch` | app/api/businessplan/update/route.ts:6-42 | No session gives 401; a failed connection gives 500; a falsy id or updateData gives 400; a failed write gives 500; an unknown id gives 404. None of these changes the store. Success happens exactly when the id exists, whoever owns the plan. Only that plan changes, to its merge with updateData, and the response is the record as stored. |
| `PlanCreate.EmptyPlan` | app/api/businessplan/create/route.ts:26-29 | The new plan has the caller's user `_id` as owner and no other field. |
| `PlanCreate.Post` | app/api/businessplan/create/route.ts:7-40 | No session gives 401; a failed connection gives 500; no User with that Clerk id gives 404; a failed save gives 500. None of these adds a plan. On success exactly one plan is added under a fresh id, owned by the caller, and that id is returned. Pre-existing plans and the users are untouched. |
| `UserRegistry.NameOrEmpty` | lib/auth/saveUserToDB.ts:17 | An absent name is stored as ''. A given name is stored as it is. |
| `UserRegistry.InsertIfAbsent` | lib/auth/saveUserToDB.ts:12-19 | Afterwards the Clerk id is present. If it already existed, nothing changes, so email and name are not overwritten. Otherwise exactly one user is added, and users with other Clerk ids are never modified. |
| `UserRegistry.InsertIfAbsentIdempotent` | lib/auth/saveUserToDB.ts:12-19 | A second call with the same Clerk id leaves the store as the first call left it. |
| `UserRegistry.InsertIfAbsentKeepsIdsDistinct` | lib/models/User.ts:5-9 | Inserting a user with a new `_id` keeps user `_id`s distinct. Clerk-id uniqueness is the map's key. |
| `UserRegistry.SaveUserToDb` | lib/auth/saveUserToDB.ts:5-20 | It throws exactly when the lookup fails, or when it must create a user and the create fails or a required path is empty. When it returns normally, the store equals the insert-if-absent of that user, so a user with that Clerk id exists. |
| `SaveUser.ValidBody` | app/api/save-user/route.ts:10 | The body passes exactly when both `id` and `email` are present and non-empty strings. See `SaveUser.Post` for the 400 answer. |
| `SaveUser.Post` | app/api/save-user/route.ts:7-25 | A falsy id or email gives 400 "Invalid data" and saveUserToDB is not called. A valid body passes id, email and name through unchanged and returns `{success: true}`, or 500 "Failed to save user" when the call throws. |
| `GenerateAnalysis.Gate` | app/api/generate-analysis/route.ts:12-23 | Each early return is stated with its status and message, in order: 401 "Unauthorized" without a session; 500 on a failed connection; 404 "User not found"; 400 for a falsy plan id; and 404 "Business Plan not found or access denied" for a plan that is missing or owned by someone else. It passes exactly when the plan exists and its userId is the caller's user `_id`. |
| `GenerateAnalysis.GateHidesOtherOwnersPlans` | app/api/generate-analysis/route.ts:22-23 | A plan owned by another user gets the same 404 as a plan that does not exist. |
| `GenerateAnalysis.Analyse` | app/api/generate-analysis/route.ts:50-66 | An object results exactly when generation succeeds and the stripped text parses. That object is the parse with the reviver applied at every depth, and undoing the reviver on it gives the plain parse back. |
| `GenerateAnalysis.Post` | app/api/generate-analysis/route.ts:10-78 | Gate failures return the gate's status and never write. A failed generation, parse or save gives 500 and leaves aiResponse untouched. On success the returned object is the revived parse, and the plan's aiResponse is set to the serialisation of exactly that object. No other field or plan changes. |
| `Homepage.GetStartedOutcome` | components/Homepage.tsx:17-44 | The handler ends with a plan id exactly when the response is OK, carries a non-empty businessPlanId, and `localStorage.setItem` succeeds. Each failure gives its message: the rejection's; "Failed to start a new plan. Please try again." for a non-OK response; the body-read error's; "Could not retrieve a new plan ID." for a missing or empty id; and the storage error's. |
| `Homepage.SettleEffects` | components/Homepage.tsx:45-47 | Every outcome ends by setting isLoading to false. |
| `Homepage.GetStartedEffects` | components/Homepage.tsx:13-48 | The effects start by setting isLoading and clearing error, and end by clearing isLoading. A navigation happens only right after a "businessPlanId" storage write, and exactly on success. No error message is set on the path that navigates. |
| `Homepage.HomePage.constructor` | components/Homepage.tsx:9-10 | The page starts with isLoading false and error null. |
| `Homepage.HomePage.Begin` | components/Homepage.tsx:14-15 | Starting sets isLoading, clears error, and touches neither storage nor route. |
| `Homepage.HomePage.Settle` | components/Homepage.tsx:17-47 | On success the id is stored under "businessPlanId", the route becomes "/businessname" and error is kept. On failure error holds the message and storage and route are unchanged. This includes a `setItem` that throws, after which the page does not navigate. isLoading is false in every case. |
| `Homepage.HomePage.HandleGetStarted` | components/Homepage.tsx:13-48 | The whole handler produces exactly the effect sequence above, the storage-write failure included. After success error is null, and after failure it holds the message. |
| `Homepage.HomePage.TriggerEnabled` | components/Homepage.tsx:77 | `disabled={isLoading}`: the button is enabled exactly when no request is in flight. See `Homepage.HomePage.Click`. |
| `Homepage.HomePage.Click` | components/Homepage.tsx:75-77 | While isLoading is true the button is disabled and a click changes nothing. Otherwise a click starts the handler. |
| `PlanSlice.Reduce` | redux/planSlice.ts:12-23 | setPlanId(p) sets currentPlanId to p whatever it was before, clearPlanId sets it to null, and actions of other slices change nothing. |
| `PlanSlice.ReducerLaws` | redux/planSlice.ts:16-21 | set(p);set(p) = set(p), clear;clear = clear, set(p);set(q) = set(q), clear;set(p) = set(p), and set(p);clear gives the initial state. |
| `PlanSlice.RunLastWriteWins` | redux/planSlice.ts:16-21 | After any sequence of actions, the state is determined by the last setPlanId or clearPlanId in it, or is the starting state if there is none. |
| `PlanSlice.PlanDraft.constructor` | redux/planSlice.ts:8-10 | The initial state has currentPlanId = null. |
| `PlanSlice.PlanDraft.SetPlanId` | redux/planSlice.ts:16-18 | The in-place case reducer agrees with the exported reducer and sets currentPlanId to the payload. |
| `PlanSlice.PlanDraft.ClearPlanId` | redux/planSlice.ts:19-21 | The in-place case reducer agrees with the exported reducer and sets currentPlanId to null. |
| `ResultVisuals.IsGo` | components/ResultVisuals.tsx:6 | `decision.toUpperCase() === 'GO'` holds only for two-character decisions. See `IsGoSpellings` for the exact set. |
| `ResultVisuals.IsGoSpellings` | components/ResultVisuals.tsx:6 | A decision is GO exactly when it is "GO", "Go", "gO" or "go". |
| `ResultVisuals.JsRemOne` | components/ResultVisuals.tsx:14 | `score % 1` is the fractional part for non-negative scores, and always lies strictly between -1 and 1. |
| `ResultVisuals.StarRating` | components/ResultVisuals.tsx:14 | When both arrays can be built, the full and empty counts are non-negative and full + half + empty = 5. |
| `ResultVisuals.StarRatingDefined` | components/ResultVisuals.tsx:14 | The two `Array(n)` calls succeed exactly for 0 ≤ score < 5.5. From 5.5 up the empty count is negative, and below 0 the full count is. |
| `ResultVisuals.StarRatingCounts` | components/ResultVisuals.tsx:14 | In that range, full = floor(score), and the half star shows exactly when score − floor(score) ≥ 0.5. |
| `ResultVisuals.StarRatingExamples` | components/ResultVisuals.tsx:14 | 3.5 gives 3/1/1, 3.4 gives 3/0/2, 4.5 gives 4/1/0 and 5 gives 5/0/0; 5.5 and -0.5 throw. |
| `ResultVisuals.SliceColour` | components/ResultVisuals.tsx:28 | Every slice's colour is one of the four palette entries. |
| `ResultVisuals.PieColours` | components/ResultVisuals.tsx:28 | n slices get n fills, and slice i gets COLORS[i mod 4]. |
| `ResultVisuals.SliceColourPeriod` | components/ResultVisuals.tsx:21-28 | Two slices share a colour exactly when their indices differ by a multiple of 4, so neighbouring slices always differ. |

## Left out

- AnalysisRepair.StripFence: lengths and positions are counted in code
  points, but JavaScript's `length` and `substring` (route.ts:53-54) count
  UTF-16 code units. A text whose last three code points include one outside
  the Basic Multilingual Plane is cut at a different place. For example,
  "```json{}\n" followed by an emoji is cut to "{}" by JavaScript and to "{"
  by the model. `JsString.Substring`, `JsString.Trim` and the escape share
  this unit of counting. Every character they test for is in the Basic
  Multilingual Plane.

- The generation request to the model provider, its configuration and the
  prompt text: the response text, or its failure, is an input.
- The JSON text grammar of `JSON.parse` and the output of `JSON.stringify`:
  both are parameters. The reviver and the bottom-up walk that calls it are
  modelled.
- Clerk's `auth()`, the middleware and its route matcher: the session is an
  optional Clerk id.
- Mongoose and MongoDB themselves:
  - Connections are not modelled; `DbFault` stands for a failed connection
    or a failed write.
  - Schema timestamps are not modelled.
  - Random ObjectIds are replaced by a counter; only freshness matters.
- Request ids that are truthy but not ObjectIds are not modelled. The
  model's ids are ObjectIds, or `None` for a falsy value. A malformed string
  makes Mongoose raise a cast error, answered with 500. An object such as
  `{"$ne": null}` is read as a query operator, so `findByIdAndUpdate`
  (update/route.ts:26) and `findOne` can match some existing plan.
- PlanUpdate.Patch: updateData is a map from the schema's string fields to
  strings. Mongoose's casting and strict-mode stripping are not modelled. So
  are unknown keys, `null` values, a `$set` of `userId`, and a truthy
  updateData that is not an object.
- Request bodies that cannot be read (`req.json()` throws): the try-wrapped
  handlers answer them with 500, and the framework answers them in
  save-user. These paths are not modelled.
- SaveUser.Post: only string `id`, `email` and `name` are modelled. Other
  values are not: Mongoose casts a number to a string, and it reads an object
  such as `{"$gt": ""}` as a query operator. With such an `id` the lookup in
  saveUserToDB.ts:12 can match another user, and the route then answers
  `{success: true}` with no user stored under that id. The `message` field of
  the 500 body is not modelled either.
- UserRegistry.SaveUserToDb: two concurrent registrations can race between
  the lookup and the create, and the unique index then rejects one of them.
  Concurrency is not modelled.
- Homepage.HomePage.HandleGetStarted: whatever `fetch`, `response.json()`
  and `localStorage.setItem` throw is an `Error` (a `DOMException` is one),
  so the "An unknown error occurred." branch cannot arise. `router.push` is
  taken never to throw. A `businessPlanId` that is not a string is not
  modelled.
- Homepage.HomePage.Click: several clicks while a request is pending are
  represented only by the disabled state between `Begin` and `Settle`.
  React's batching of state updates is not modelled.
- ResultVisuals.IsGoSpellings: `toUpperCase` is modelled on ASCII letters
  only. Unicode case mappings beyond ASCII are not modelled.
- ResultVisuals.StarRating: the score is an exact real. NaN, infinities,
  floating-point rounding and the `Array(n)` upper limit of 2^32 − 1 are not
  modelled. `toFixed`, JSX and SVG output are left out.
- The Redux store with its `undefined` initial state, and `dispatch`: the
  reducer is modelled from a given state.
- The six wizard step pages, the results page, the navigation bar, the
  static pages, the 3D cube, the prompt test page and its endpoint, the
  roast endpoint, the provider helper modules and the `CreatePlan` button
  (it posts to `/api/plans`, outside the modelled routes): these are not
  part of this model.
