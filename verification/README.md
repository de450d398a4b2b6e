# drag-3D-three client stores, modelled in Dafny

This project models the three client-side stores of the drag-3D-three scene
builder. In each model a store is an immutable state value, and each store
action is a pure function from one state to the next.

- **Case repository** (`Cases`, `cases.dfy`). The saved cases form an ordered
  list, mirrored after every mutation to the `localStorage` key
  `drag-3d-cases`. The model covers create, lookup by id, the owner query,
  whole-record update, delete by id and the thumbnail patch, plus
  `initialize` and `saveToLocalStorage`.
- **Template catalog** (`Templates`, `templates.dfy`). These are the two
  authored lists of starter content, 3D scenes and 2D chart dashboards, with
  the first-match lookup `getTemplateById`.
- **Session state** (`Auth`, `auth.dfy`). This holds the token, the user and
  the `initialized` flag, mirrored to `auth_token` and `auth_user`.

Shared pieces:

- `Wrappers`: `Option`, standing in for `null` and `undefined`.
- `Seqs`: `findIndex` and `filter`, with their order and multiplicity lemmas.
- `Persistence`: the storage map and the JSON codec.
- `Schema`: the 3D `Element`.
- `Scenarios`: flows that combine the catalog with the repository.

The environment enters every action as explicit parameters:

- `localStorage` is a `map<string, string>` held inside the state.
- `JSON.stringify` and `JSON.parse` form a `Codec` pair. `decode` yields
  `None` where `JSON.parse` throws.
- Properties that need the codec to round-trip require the ghost predicate
  `Persistence.RoundTrips(codec, x)` for the values involved. It says that
  `decode(encode(x)) == Some(x)` and that the encoding of `x` is not the empty
  string. The session store requires the law for every user
  (`Persistence.Lawful`), which a codec can meet (`Auth.LawfulUserCodecExists`).
  A case list holds real-valued coordinates, and there are uncountably many
  such lists but only countably many strings, so no codec round-trips every
  list. The case-store lemmas therefore assume the round trip only for the
  lists they save.
- `createCase` reads `Date.now()` three times, so the model takes three
  clock readings: `stamp` for the id, `createdNow` and `updatedNow`.
  `updateCase` takes one reading, `now`.
- The random base-36 fragment of an id (`Math.random()`) is a `suffix`
  parameter.

Behaviour of the code worth knowing, which the model keeps as written:

- The cases store's `initialize` has no run-once guard. On a missing, empty or
  unparsable document it leaves the in-memory list as it was, instead of
  emptying it.
- `generateThumbnail` does not refresh `updatedAt`.
- `updateCase` replaces the whole record with the caller's record. So it can
  change owner fields and `createdAt`, and `updatedAt >= createdAt` holds only
  when the caller's `createdAt` does not exceed the clock reading
  (`Scenarios.RenameThenGet`).
- `createdAt == updatedAt` at creation holds only when the two clock readings
  agree.
- No validation of element or chart data happens at the store boundary.
- Case ids are not guaranteed unique. Lemmas that need uniqueness take it as
  a precondition. `Cases.NewIdInjective` shows that two ids are equal only
  when their timestamp and random fragment are.

The model is a value model and has no object identity. The program does
share objects, and that sharing is not modelled (see "Left out").

## Model

| member | source | states |
|---|---|---|
| Seqs.FirstIndex | src/stores/cases.ts:98 | result is -1 exactly when no element satisfies the predicate, otherwise the first satisfying position |
| Seqs.Filter | src/stores/cases.ts:112 | result is no longer than the input and every kept element satisfies the predicate |
| Seqs.FilterIsSubsequence | src/stores/cases.ts:89-93 | filtering keeps the relative order of the kept elements |
| Seqs.FilterCount | src/stores/cases.ts:89-93 | filtering keeps every occurrence of a satisfying value and none of any other |
| Seqs.FilterIdempotent | src/stores/cases.ts:112 | filtering twice with one predicate equals filtering once |
| Cases.Decimal | src/stores/cases.ts:72 | the timestamp rendering is a non-empty string of decimal digits, one digit exactly for values below 10 |
| Cases.DecimalRoundTrip | src/stores/cases.ts:72 | reading the rendered digits back gives the timestamp |
| Cases.NewIdInjective | src/stores/cases.ts:72 | two generated ids are equal only if their timestamps and random fragments are equal |
| Cases.Save | src/stores/cases.ts:51-57 | the store key afterwards holds the encoding of the list; the list and all other keys are unchanged |
| Cases.Initialize | src/stores/cases.ts:39-48 | a present, non-empty, parsable document replaces the list; otherwise the list is kept; storage is never written |
| Cases.ReloadRestores | src/stores/cases.ts:39-57 | when storage is in sync and the list round-trips through the codec, loading it from any starting list yields the saved list |
| Cases.SaveThenInitialize | src/stores/cases.ts:39-57 | when the list round-trips through the codec, initialize after save leaves the saved store unchanged |
| Cases.NewId | src/stores/cases.ts:72 | the id is the prefix `case-`, then the timestamp digits ending at the first dash, then the random fragment as its tail |
| Cases.GetAllCases | src/stores/cases.ts:60-62 | the full list, equal to the owner query with both filters omitted, holding exactly the ids that lookup by id finds |
| Cases.IndexOf | src/stores/cases.ts:98 | -1 exactly when no case has the id, otherwise the first position holding it |
| Cases.GetCaseById | src/stores/cases.ts:65-67 | null exactly when no case has the id, otherwise the case at the first position holding it |
| Cases.GetCasesByOwner | src/stores/cases.ts:87-94 | with a falsy name and a falsy id (including 0) the whole list; otherwise an order-preserving subsequence with every matching case at full multiplicity and no other |
| Cases.CreateCase | src/stores/cases.ts:70-85 | appends exactly one record, built from the arguments with the placeholder name and empty elements as defaults; returns it and persists |
| Cases.UpdateCase | src/stores/cases.ts:97-108 | true exactly when the id is present; then the first match is replaced by the record stamped with the clock and the list is persisted; otherwise the store, storage included, is unchanged |
| Cases.DeleteCase | src/stores/cases.ts:111-114 | no case with the id remains, the others keep their order and multiplicity, and storage is always rewritten |
| Cases.GenerateThumbnail | src/stores/cases.ts:117-125 | true exactly when the id is present; then only the thumbnail of the first match changes and the list is persisted; otherwise nothing changes |
| Cases.FirstWithIdUnique | src/stores/cases.ts:66 | the first position holding an id is unique |
| Cases.CreateThenGet | src/stores/cases.ts:60-85 | with an unused id, the list grows by one, the new id finds the new record, and distinct ids stay distinct |
| Cases.UpdateThenGet | src/stores/cases.ts:97-108 | after a successful update, the id finds the supplied record with the new update time |
| Cases.UpdateKeepsIds | src/stores/cases.ts:98-103 | an update never changes the set of ids and keeps them pairwise distinct |
| Cases.DeleteIdempotent | src/stores/cases.ts:111-114 | deleting an id twice gives the same store as deleting it once |
| Cases.ThumbnailThenGet | src/stores/cases.ts:117-125 | after the patch, the id finds the previous record with only its thumbnail replaced |
| Cases.UpdateReloads | src/stores/cases.ts:97-108 | after an update of an in-sync store, a fresh load over the same storage yields the new list whenever that list round-trips through the codec |
| Cases.DeleteReloads | src/stores/cases.ts:111-114 | after a delete, from any store, a fresh load over the same storage yields the remaining list whenever it round-trips through the codec |
| Cases.ThumbnailReloads | src/stores/cases.ts:117-125 | after a thumbnail patch of an in-sync store, a fresh load over the same storage yields the patched list whenever it round-trips through the codec |
| Cases.OwnerQueryQuirks | src/stores/cases.ts:88-92 | an empty name or an id of 0 alone returns every case, but 0 next to a non-empty name filters on the id |
| Cases.OwnerQueryByName | src/stores/cases.ts:89-93 | a non-empty name alone keeps exactly the cases owned under that name |
| Templates.GetTemplateById | src/stores/templates.ts:284-287 | undefined exactly when the selected list has no such id, otherwise the first entry with it |
| Templates.Catalog | src/stores/templates.ts:285 | the searched list has three entries, all scenes exactly when the kind is "3d", otherwise all dashboards |
| Templates.OtherKindsSearchCharts | src/stores/templates.ts:285 | every kind other than "3d" searches the chart list |
| Templates.DistinctIdsFindExact | src/stores/templates.ts:286 | in a list with distinct ids, an entry is the first match for its own id |
| Templates.CatalogShape | src/stores/templates.ts:13-280 | each list has three entries whose ids are distinct and are basic-3d, building-3d, data-center-3d and basic-2d, dashboard-2d, map-2d |
| Templates.LookupFindsEachEntry | src/stores/templates.ts:284-287 | looking up each listed id under its kind returns exactly that entry |
| Templates.SceneContents | src/stores/templates.ts:19-48 | 3D entries hold scenes and 2D entries hold dashboards; basic-3d is a cube, a sphere and a cylinder |
| Templates.SceneElementIdsDistinct | src/stores/templates.ts:20-139 | within each 3D template the element ids are pairwise distinct |
| Templates.DashboardLayout | src/stores/templates.ts:151-277 | every chart lies in the 100 x 100 percentage grid, and each dashboard's rows tile the width exactly |
| Auth.Fresh | src/stores/auth.ts:11-15 | a new process starts uninitialised, unauthenticated and with no user, over the given storage |
| Auth.IsAuthenticated | src/stores/auth.ts:17 | authenticated exactly when the token is neither null nor the empty string |
| Auth.LawfulUserCodecExists | src/stores/auth.ts:36-38 | some user serialiser meets the round-trip law the session reload assumes |
| Auth.Initialize | src/stores/auth.ts:20-32 | no-op once initialised; otherwise loads the stored token, or null, and the stored user, or null; a failed parse keeps the previous user; always ends initialised |
| Auth.SetAuth | src/stores/auth.ts:33-40 | the state holds the given token and user; the token key is present, holding the token, exactly when the token is truthy; the user key is present exactly when there is a user; other keys are unchanged |
| Auth.Logout | src/stores/auth.ts:41-43 | token and user are null, both keys are gone, and the session is not authenticated |
| Auth.InitializeIdempotent | src/stores/auth.ts:20-21 | initialising twice equals initialising once |
| Auth.AuthenticatedIffTokenStored | src/stores/auth.ts:17 | after setAuth or logout, being authenticated is the same as the token key being present |
| Auth.SetAuthThenReload | src/stores/auth.ts:20-40 | a fresh process over the storage left by setAuth loads the token when it was truthy, or null, and the same user |
| Auth.LogoutThenReload | src/stores/auth.ts:20-43 | a fresh process after logout is unauthenticated and has no user |
| Scenarios.CreateFromBasicTemplate | src/stores/cases.ts:70-85 | creating an unnamed case from basic-3d grows the list by one, and the new id finds the placeholder name and three elements |
| Scenarios.RenameThenGet | src/stores/cases.ts:97-108 | a rename at a later clock reading is visible under the id, with updatedAt past createdAt |

## Left out

- `changePassword` (src/stores/auth.ts:44-58) and src/utils/request.ts are asynchronous network clients and are not part of this model.
- src/router/index.ts and vite.config.ts are framework wiring and dev-server configuration, with no store logic.
- JSON serialisation internals are left out. The codec is a parameter, and its round-trip law is a precondition where it is needed. A `JSON.parse` that succeeds with something other than a case list or a user object (for example `"null"` under `auth_user`) is treated as a parse failure.
- Storage access errors are not modelled. The model assumes `localStorage.getItem` never throws and `setItem` never fails, for example on an exceeded quota. The source only logs these errors.
- `console.error` logging, Pinia reactivity and the `defineStore` machinery are left out.
- Object sharing is not modelled, because values here are immutable. In the program:
  - `getAllCases` and `getCaseById` return live references;
  - the record `createCase` returns (src/stores/cases.ts:84) is the same object that `generateThumbnail` later patches in place;
  - a case created from `getTemplateById(...).data.elements` shares that array with the catalog (src/stores/cases.ts:74, src/stores/templates.ts:286), so a mutation through either one shows in the other.
- Template `data` payloads of charts (axis labels and series) are not modelled. This includes the randomised demo series at src/stores/templates.ts:241. The source does no arithmetic on them.
- Numbers are modelled as mathematical values: element coordinates and sizes as `real`, and owner ids and timestamps as integers. `NaN`, fractional owner ids and negative clock readings are not modelled.
- Cases.GetCasesByOwner: an owner id of `NaN`, which is falsy but still a number, is outside the integer model.
