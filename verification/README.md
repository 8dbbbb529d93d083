# Wellness dashboard state stores, modelled in Dafny

This project models the two client-side state stores of the `vue-flourish-hub`
wellness dashboard and proves properties about them.

- **Session store** (`auth.dfy`, module `Auth`), from `stores/auth.ts`:
  - checks credentials against a fixed table of six accounts;
  - derives `isAuthenticated` and a role-ranked `hasPermission` (individual 1, professional 2, educator 3);
  - moves between logged out and active through `login`, `logout`, `refreshAuthToken` and `updateProfile`;
  - persists to two tiers. `durable` stands for localStorage and `ephemeral` for sessionStorage. The `rememberMe` flag chooses the tier at login;
  - restores a session at start-up (`initializeAuth`) from the durable tier only.
- **Metric store** (`nutrition.dfy`, module `Nutrition`), from `stores/nutrition.ts`:
  - four daily `{current, target}` counters;
  - running macro totals derived from each calorie delta;
  - a seven-day calorie series;
  - a newest-first activity log capped at ten entries;
  - write-through saving of the daily and chart data to the durable tier after every metric update;
  - a one-level merge when loading;
  - the derived `caloriesRemaining`, `waterProgress` and health score.

Each store is a class whose fields are the store's refs and its storage tiers, held as
`map` fields. Each method follows the TypeScript statements in order. Its postcondition
says the new state equals a pure function of the old state: `AfterLogin`, `AfterUpdateCalories`
and so on. Those functions carry the properties in their own postconditions. Lemmas relate
several calls: commutation, idempotence, the save/load round trip and the activity log
after any number of additions. `wrappers.dfy` holds the `Option` type that stands for
`null` and for absent storage keys.

Modelling choices:

- **Clock readings are parameters.**
  - `Date.now()` becomes `now: nat` (milliseconds).
  - Tokens are `"token_"` or `"refresh_"` followed by the decimal digits of `now`. Both reads of the clock in `login` are taken as the same instant.
  - `new Date()` for `lastLogin` is the same `now`.
  - The `lastUpdated` stamp of a saved record is a string parameter.
- **Storage values are typed entries, not strings.**
  - A session-tier value is a plain string (`Text`) or the JSON text of a user (`UserJson`). Only the latter parses as a user.
  - A metric-tier value is the JSON text of a record (`Json`) or text that does not parse (`Unparseable`).
  - "Truthy" reads (`getItem(k) ? … : …`) test that the key is present and its text is not empty.
- **Numbers are exact reals.** `Round(x)` is `Floor(x + 0.5)`, which is `Math.round`: it rounds halves upward.
- **Quirks of the code that the model keeps:**
  - `resetDailyData` overwrites the targets with the fixed 2000 / 2.5 / 60 / 8, whatever they were before.
  - `addActivity` pops at most one entry after its `unshift`, and it does not call `saveUserData`.
  - `initializeAuth` reads only localStorage, so a session kept in sessionStorage is not restored.
  - A non-remembered login keeps the refresh token in memory only; no tier receives it.

## Model

| member | source | states |
|---|---|---|
| `Auth.Rank` | vue-flourish-hub/src/stores/auth.ts:48-52 | ranks lie in 1..3; individual is the only rank 1 and educator the only rank 3 |
| `Auth.FindByEmail` | vue-flourish-hub/src/stores/auth.ts:129 | `find` gives none exactly when no user has that email; otherwise it gives the first user with that exact email |
| `Auth.CheckCredentials` | vue-flourish-hub/src/stores/auth.ts:129-139 | succeeds iff the email is in the table and the password is the one it expects (`admin`/`admin`, `user`/`user`, else `password123`); the match is exact and the result is the table's own record |
| `Auth.AccountEmailsDistinct` | vue-flourish-hub/src/stores/auth.ts:76-125 | no two accounts share an email |
| `Auth.AccountLogsIn` | vue-flourish-hub/src/stores/auth.ts:129-146 | every account logs in with its expected password, as itself and with its recorded role |
| `Auth.ShortNameLogins` | vue-flourish-hub/src/stores/auth.ts:109-155 | `admin`/`admin` with `rememberMe` logs in as the professional account and puts user, token and refresh token in the durable tier, leaving the ephemeral tier; `user`/`user` without it logs in as the individual account and puts user and token in the ephemeral tier, leaving the durable tier |
| `Auth.BadCredentialsRefused` | vue-flourish-hub/src/stores/auth.ts:129-158 | a wrong password, an `admin` login with the shared password, and `Admin` (wrong case) all fail with "Login failed" and change nothing |
| `Auth.DecimalText` | vue-flourish-hub/src/stores/auth.ts:141-142 | the clock value in a token is written as a non-empty string of decimal digits |
| `Auth.DecimalRoundTrip` | vue-flourish-hub/src/stores/auth.ts:141 | reading the decimal text back gives the clock value |
| `Auth.TokensAreFresh` | vue-flourish-hub/src/stores/auth.ts:141-142 | tokens and refresh tokens issued at different clock readings differ |
| `Auth.IsAuthenticated` | vue-flourish-hub/src/stores/auth.ts:39 | being authenticated needs both a user and a token, and an empty token never authenticates |
| `Auth.HasRole` | vue-flourish-hub/src/stores/auth.ts:41-43 | a user holds a role exactly when the user's rank is that role's rank, and holding a role passes that role's permission check |
| `Auth.AuthenticatedIffPresent` | vue-flourish-hub/src/stores/auth.ts:39 | when the token is not the empty string, `isAuthenticated` holds iff both user and token are present |
| `Auth.HasPermission` | vue-flourish-hub/src/stores/auth.ts:45-55 | false without a user; an educator passes every check; the individual requirement is met by any user; an individual passes only the individual requirement |
| `Auth.RolesAndPermissions` | vue-flourish-hub/src/stores/auth.ts:41-55 | `isEducator` implies every permission; `isIndividual` excludes professional and educator; `isProfessional` passes professional and not educator |
| `Auth.PermissionMonotone` | vue-flourish-hub/src/stores/auth.ts:54 | a permission granted for a role is granted for every role ranked at or below it |
| `Auth.AfterClearAuth` | vue-flourish-hub/src/stores/auth.ts:169-175 | removes user, token and refresh token from the durable tier and user and token from the ephemeral tier; every other key and the in-memory fields are unchanged |
| `Auth.AfterLogout` | vue-flourish-hub/src/stores/auth.ts:162-167 | user, token and refresh token become null, so the session is not authenticated and every permission check fails; auth keys leave both tiers and other keys stay |
| `Auth.LogoutIdempotent` | vue-flourish-hub/src/stores/auth.ts:162-175 | logging out twice equals logging out once |
| `Auth.AfterInitialize` | vue-flourish-hub/src/stores/auth.ts:57-72 | with no durable user or no durable token nothing changes; a parseable durable user with a token restores an authenticated session, with the durable refresh token when present and null when absent, and writes nothing; an unparseable user clears both tiers and leaves the fields |
| `Auth.InitializeIgnoresEphemeral` | vue-flourish-hub/src/stores/auth.ts:58-60 | what start-up restores does not depend on the ephemeral tier |
| `Auth.InitializeIdempotent` | vue-flourish-hub/src/stores/auth.ts:57-72 | running start-up restoration twice equals running it once |
| `Auth.WithSession` | vue-flourish-hub/src/stores/auth.ts:148-155 | the tier written at login holds the user and the token, and the refresh token when one is written; every other key reads as before |
| `Auth.AfterLogin` | vue-flourish-hub/src/stores/auth.ts:129-158 | failed check: "Login failed" and the whole session unchanged; success: the matched user with its role and a new `lastLogin`, fresh token and refresh token, authenticated; remembered writes user, token and refresh token to the durable tier only; otherwise it writes user and token to the ephemeral tier only |
| `Auth.EphemeralSessionRefreshes` | vue-flourish-hub/src/stores/auth.ts:148-196 | after a non-remembered login the in-memory refresh token still allows a refresh; the new token goes to the ephemeral tier and no refresh token is ever written to the durable tier |
| `Auth.RestartRestoresRememberedLogin` | vue-flourish-hub/src/stores/auth.ts:57-155 | on a clean start, a remembered login is restored after a restart with the same user and tokens, and a non-remembered one is not |
| `Auth.ApplyUpdate` | vue-flourish-hub/src/stores/auth.ts:179 | for each of the six user fields, a field the update carries overrides and an absent one keeps the user's value |
| `Auth.AfterUpdateProfile` | vue-flourish-hub/src/stores/auth.ts:177-184 | no user: nothing changes; otherwise each of id, email, name, role, profileComplete and lastLogin takes the update's value when given and keeps its own otherwise, tokens untouched, and the user is rewritten to the durable tier if that tier holds a user, else to the ephemeral tier |
| `Auth.UpdateProfileIdempotent` | vue-flourish-hub/src/stores/auth.ts:177-184 | applying the same update twice equals applying it once |
| `Auth.AfterRefresh` | vue-flourish-hub/src/stores/auth.ts:186-198 | without a (non-empty) refresh token it gives false and changes nothing; otherwise only the token changes, and it is written to the durable tier if that tier holds a token, else to the ephemeral tier; the result is true |
| `Auth.SessionStore.constructor` | vue-flourish-hub/src/stores/auth.ts:35-37 | a new store holds no user and no tokens and is not authenticated |
| `Auth.SessionStore.ClearAuth` | vue-flourish-hub/src/stores/auth.ts:169-175 | new state is `AfterClearAuth` of the old one |
| `Auth.SessionStore.InitializeAuth` | vue-flourish-hub/src/stores/auth.ts:57-72 | new state is `AfterInitialize` of the old one |
| `Auth.SessionStore.Login` | vue-flourish-hub/src/stores/auth.ts:74-160 | outcome and new state are `AfterLogin` of the old state |
| `Auth.SessionStore.Logout` | vue-flourish-hub/src/stores/auth.ts:162-167 | new state is `AfterLogout` of the old one |
| `Auth.SessionStore.UpdateProfile` | vue-flourish-hub/src/stores/auth.ts:177-184 | new state is `AfterUpdateProfile` of the old one |
| `Auth.SessionStore.RefreshAuthToken` | vue-flourish-hub/src/stores/auth.ts:186-203 | result and new state are `AfterRefresh` of the old state |
| `Nutrition.Round` | vue-flourish-hub/src/stores/nutrition.ts:146-149 | `Math.round` gives the integer within half a unit, halves going up |
| `Nutrition.MacroDelta` | vue-flourish-hub/src/stores/nutrition.ts:137-150 | each macro gain is within half a gram of 45%/4, 25%/4 and 30%/9 of the calories, and fiber is within half a gram of calories/100; every gain is a whole number of grams, so together with the half-gram bounds it is `Math.round` of that quotient; no gain is negative for a non-negative delta; a zero delta adds nothing |
| `Nutrition.Snapshot` | vue-flourish-hub/src/stores/nutrition.ts:108-112 | the record written holds the daily and chart data completely: merging it over any data gives them back; it carries the given stamp |
| `Nutrition.MergeDaily` | vue-flourish-hub/src/stores/nutrition.ts:99 | no stored section keeps the daily data; otherwise each stored counter replaces the current one whole and each missing one is kept |
| `Nutrition.MergeChart` | vue-flourish-hub/src/stores/nutrition.ts:100 | no stored section keeps the chart data; otherwise stored macros and a stored series replace the current ones whole and missing ones are kept |
| `Nutrition.Saved` | vue-flourish-hub/src/stores/nutrition.ts:107-114 | the storage key holds the record of the current daily and chart data; other keys and all in-memory data are unchanged |
| `Nutrition.AfterLoad` | vue-flourish-hub/src/stores/nutrition.ts:94-105 | an absent or unparseable entry changes nothing; otherwise a missing section keeps the current one, and within a stored section each of the four counters, the macros and the series is replaced by the stored value when present and kept when absent; storage and the activity log are never changed |
| `Nutrition.AfterUpdateCalories` | vue-flourish-hub/src/stores/nutrition.ts:116-120 | adds the delta to calories, adds the delta's macro gains to the totals, leaves water, exercise, sleep, weekly and the log alone, and saves |
| `Nutrition.AfterUpdateWater` | vue-flourish-hub/src/stores/nutrition.ts:122-125 | the new water value is within 0.05 of the exact sum and has one decimal place; nothing else in the daily data changes; saves |
| `Nutrition.AfterUpdateExercise` | vue-flourish-hub/src/stores/nutrition.ts:127-130 | adds minutes to exercise only and saves |
| `Nutrition.AfterUpdateSleep` | vue-flourish-hub/src/stores/nutrition.ts:132-135 | sets sleep's current value to the given hours, touches nothing else and saves |
| `Nutrition.AfterReset` | vue-flourish-hub/src/stores/nutrition.ts:159-175 | all currents 0, targets 2000/2.5/60/8 whatever they were, macros 0, weekly and log kept, saved |
| `Nutrition.AfterUpdateWeekly` | vue-flourish-hub/src/stores/nutrition.ts:177-182 | an index outside 0..6 changes nothing, storage included; an index inside sets that day, keeps the other six and saves; the series stays seven long |
| `Nutrition.PushActivity` | vue-flourish-hub/src/stores/nutrition.ts:152-157 | the new entry is first and the old entries follow shifted by one; the length grows by one unless that would pass ten, in which case the last entry is dropped; a log of at most ten stays at most ten |
| `Nutrition.AfterAddActivity` | vue-flourish-hub/src/stores/nutrition.ts:152-157 | only the log changes; nothing is written to storage |
| `Nutrition.RecordedKeepsLatest` | vue-flourish-hub/src/stores/nutrition.ts:152-157 | after any sequence of additions to a log of at most ten, the log is the added entries newest first followed by the old log, cut to ten |
| `Nutrition.CaloriesRemaining` | vue-flourish-hub/src/stores/nutrition.ts:86-88 | never negative, at least target minus current, and either 0 or exactly target minus current |
| `Nutrition.WaterProgress` | vue-flourish-hub/src/stores/nutrition.ts:90-92 | the whole percentage nearest the water ratio; non-negative for a non-negative current and positive target; at most 100 while the target is not exceeded |
| `Nutrition.CappedRatio` | vue-flourish-hub/src/stores/nutrition.ts:186-189 | at most 1 and at most the ratio current/target, and equal to one of the two (so it is their minimum); non-negative for a non-negative current and positive target; exactly 1 once the target is met; 0 for a zero current |
| `Nutrition.HealthScore` | vue-flourish-hub/src/stores/nutrition.ts:184-194 | within half a unit of the mean of the four capped ratios times 100, so it is that mean rounded as `Math.round` does; never above 100; in 0..100 for non-negative currents and positive targets; 100 when every target is met; 0 when every current is 0 |
| `Nutrition.CaloriesCommute` | vue-flourish-hub/src/stores/nutrition.ts:116-150 | two calorie updates give the same state in either order |
| `Nutrition.MacrosRoundPerUpdate` | vue-flourish-hub/src/stores/nutrition.ts:146-149 | the calorie counter is additive, but two 50 kcal updates add 2 g fiber where one 100 kcal update adds 1 g |
| `Nutrition.FiveHundredCaloriesOnDefaults` | vue-flourish-hub/src/stores/nutrition.ts:116-150 | 500 kcal on the defaults gives calories 2150, carbs 251, protein 156, fat 82 and fiber 33 |
| `Nutrition.DefaultIndicators` | vue-flourish-hub/src/stores/nutrition.ts:36-41 | the default counters give health score 80, water progress 72 and 350 kcal remaining |
| `Nutrition.ResetIndicators` | vue-flourish-hub/src/stores/nutrition.ts:159-165 | after a reset: score 0, water progress 0, 2000 kcal remaining |
| `Nutrition.LoadRestoresSaved` | vue-flourish-hub/src/stores/nutrition.ts:94-114 | loading the record that any save left restores the saved daily and chart data exactly, over any state |
| `Nutrition.SaveThenLoadOnFreshStore` | vue-flourish-hub/src/stores/nutrition.ts:94-114 | saving, then loading into a store holding the defaults, reproduces the saved data |
| `Nutrition.LoadIsShallow` | vue-flourish-hub/src/stores/nutrition.ts:99-100 | a record holding only a calorie counter replaces that whole counter, target included, and keeps everything else |
| `Nutrition.NutritionStore.constructor` | vue-flourish-hub/src/stores/nutrition.ts:36-78 | a new store holds the default counters, macros, series and four activities |
| `Nutrition.NutritionStore.LoadUserData` | vue-flourish-hub/src/stores/nutrition.ts:94-105 | new state is `AfterLoad` of the old one |
| `Nutrition.NutritionStore.SaveUserData` | vue-flourish-hub/src/stores/nutrition.ts:107-114 | new state is `Saved` of the old one |
| `Nutrition.NutritionStore.UpdateMacros` | vue-flourish-hub/src/stores/nutrition.ts:137-150 | only the macro totals change, each by the `MacroDelta` gain |
| `Nutrition.NutritionStore.UpdateCalories` | vue-flourish-hub/src/stores/nutrition.ts:116-120 | new state is `AfterUpdateCalories` of the old one |
| `Nutrition.NutritionStore.UpdateWater` | vue-flourish-hub/src/stores/nutrition.ts:122-125 | new state is `AfterUpdateWater` of the old one |
| `Nutrition.NutritionStore.UpdateExercise` | vue-flourish-hub/src/stores/nutrition.ts:127-130 | new state is `AfterUpdateExercise` of the old one |
| `Nutrition.NutritionStore.UpdateSleep` | vue-flourish-hub/src/stores/nutrition.ts:132-135 | new state is `AfterUpdateSleep` of the old one |
| `Nutrition.NutritionStore.AddActivity` | vue-flourish-hub/src/stores/nutrition.ts:152-157 | new state is `AfterAddActivity` of the old one, and the log stays at most ten long |
| `Nutrition.NutritionStore.ResetDailyData` | vue-flourish-hub/src/stores/nutrition.ts:159-175 | new state is `AfterReset` of the old one |
| `Nutrition.NutritionStore.UpdateWeeklyData` | vue-flourish-hub/src/stores/nutrition.ts:177-182 | new state is `AfterUpdateWeekly` of the old one |

## Left out

- Latency and overlapping calls. `login` and `refreshAuthToken` wait on `setTimeout`; the model makes both atomic. Races between overlapping calls are not modelled.
- The `logout()` fallback of `refreshAuthToken` (auth.ts:199-201) is never reached: nothing in the modelled refresh can fail. A failing `setItem` (for example a full quota) is not modelled.
- JSON, at the level of structure:
  - The storage values are typed entries, not strings. A plain string entry never parses as a user.
  - A stored metric record whose shape differs from what `saveUserData` writes is not modelled. Examples: a counter without a target, a weekly array of another length, or a value that parses as JSON but is not an object.
  - The JSON text of a user read from a token slot is written without string escaping.
  - A reloaded `lastLogin` stays a number; in the source it comes back as a string.
- `Auth.AfterUpdateProfile`: a field of the update is either given or absent. In the source a `Partial<User>` may carry a key whose value is `undefined`, and the spread then sets that user field to `undefined`. The model has no such case, so it keeps the old value there.
- `Nutrition.WaterProgress`, `Nutrition.CappedRatio`, `Nutrition.HealthScore`: they require non-zero targets. With a zero target the source's division gives `Infinity` or `NaN`.
- Floating point. Every number is an exact real, so the double-precision error in, for example, `0.45 * calories` is not modelled.
- `Nutrition.NutritionStore.UpdateWeeklyData`: the day index is an integer. A fractional index (which in the source sets a non-index property of the array) is not modelled.
- The two durable tiers are one browser localStorage. The two stores use disjoint keys, so each store's `durable` map holds only what that store reads and writes.
- Not modelled:
  - Vue reactivity, the `readonly` helper and `totalCaloriesConsumed` (a plain read of `calories.current`);
  - the static `programStats` counters;
  - `console.error`/`console.warn` logging;
  - application bootstrap and the route table (`main.ts`, `router/index.ts`). They only call `initializeAuth` at start-up.
