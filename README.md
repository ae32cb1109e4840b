# NoteMate license gate, modelled in Dafny

NoteMate is a demo note-taking app. Its server holds one process-wide cache of the active
license (`activeLicense`). A license key is activated against the Keymint activation service
through `POST /api/enter-license`. `POST /api/clear-license` drops the cache and
`GET /api/license-state` reports it. The `requireFeature` guard stands in front of the two
premium routes, `/api/feature/exportPDF` and `/api/feature/darkMode`. The client keeps a list of
notes, derives `isPremium` from the license state it fetched, and exports the edited note as a
markdown file.

The project has five modules:

- `Wrappers` holds `Option` and `Result`.
- `JsonValue` holds the JSON values that the server and client exchange. Member lookup follows
  `JSON.parse`: the last duplicate key wins.
- `LicenseServer` models server/src/index.ts. The class `Gate` holds `productId` and the
  `active` cache, and has one method per handler. Each method's `ensures` ties the new cache and
  the reply to a pure transition: `Activate`, `StateView`, `RequireFeature`, `FeatureReply`,
  `LegacyReply` or `Step`. `Run` folds `Step` over any sequence of requests from process start.
  The invariant `Entitled` is proved for every reachable state.
- `NoteMateApp` models client/src/pages/App.tsx. The note-list transformations, `IsPremium` and
  the export name and content are functions. The component's state is the class `AppState`,
  whose invariant says the edited note matches a listed note in everything but `updatedAt`.
- `EndToEnd` connects the two: the client's premium flag and its exports follow the server's
  cache.

Each handler is one atomic step. The Keymint call is a function parameter
`remote: ActivationRequest -> RemoteOutcome`, so the request the server sends can be named in
contracts. The clock, `Math.random`'s base-36 suffix and `crypto.randomUUID()` are also
parameters.

Behaviours of the code a reader might not expect:

- The schema only asks for `licenseKey` to be a string, so an empty key is accepted and sent on.
- A body that fails the schema throws a ZodError. A ZodError has no `response`, so the handler
  answers 500 "Server error", not a 400 validation error.
- An empty `hostId` is replaced by a generated one, just like a missing one.
- `features` is the array `["exportPDF", "darkMode"]`, not a set.
- The 403 message is "Feature not available for current license".
- `license-state` returns the whole cached record, license key included.

## Model

| member | source | states |
|---|---|---|
| `LicenseServer.ParseBody` | server/src/index.ts:43-44 | A body passes iff it is an object, `licenseKey` is a string (possibly empty), and `deviceTag` and `hostId` are absent or strings. The parsed fields are exactly the body's. A rejection names at least one issue, and a missing or non-string key is the first issue. |
| `LicenseServer.ActivationHost` | server/src/index.ts:45 | The host id is never empty. A non-empty supplied id is kept. Otherwise the id is `host-` followed by the random suffix. |
| `LicenseServer.Activate` | server/src/index.ts:41-65 | Status 200 iff the body parses and the service answers 2xx with a non-null body. On 200 the cache becomes exactly the PRO record: given key, host id sent, `now`, fixed features, licensee fields from the answer. On anything else the cache is unchanged. Schema errors, transport errors and a null answer give 500 `{message, error}`. Service errors pass their status and body through. The invariant is preserved. |
| `LicenseServer.ActivatedHostEchoed` | server/src/index.ts:45-60 | After a successful activation, the reply's `hostId` is the stored host id, which is the one sent to the service. A non-empty supplied id is the one used. The reply says tier PRO. |
| `LicenseServer.FreeViewReadsBack` | server/src/index.ts:74 | The default view reads tier FREE and features `[]`, and has no license key. |
| `LicenseServer.RecordReadsBack` | server/src/index.ts:75 | Every field of a cached record reads back from its JSON projection `RecordJson`. Absent licensee fields stay absent. |
| `LicenseServer.StateViewReadsBack` | server/src/index.ts:73-76 | `StateView`, the `license-state` body, reports the cached tier and features, or FREE with `[]`. It carries a license key iff a license is cached. |
| `LicenseServer.RequireFeature` | server/src/index.ts:78-84 | The guard passes iff a license is cached and lists the feature. Otherwise it answers 402 "No active license" when nothing is cached and 403 when the feature is not listed. |
| `LicenseServer.FeatureReply` | server/src/index.ts:78-91 | Only exportPDF and darkMode have a route. The route answers 200 `{ok:true, feature}` iff the cached license lists the feature. A denied request gets exactly the guard's reply: 402 "No active license" when nothing is cached, 403 when the feature is not listed. |
| `LicenseServer.LegacyReply` | server/src/index.ts:94-96 | Exactly the four removed paths answer 410. |
| `LicenseServer.Step` | server/src/index.ts:41-96 | One request preserves the invariant. Only enter-license and clear-license write the cache, and clear always leaves it empty. |
| `LicenseServer.RunEntitled` | server/src/index.ts:38-71 | In every state reachable from process start, a cached license is PRO with features `["exportPDF","darkMode"]`. |
| `LicenseServer.ReachableGuard` | server/src/index.ts:51-84 | In every reachable state, the guard for either premium feature passes iff a license is cached. When it denies, the status is 402, so the 403 branch is never taken. |
| `LicenseServer.ClearIdempotent` | server/src/index.ts:68-71 | Clearing twice gives the same cache and reply as clearing once. |
| `LicenseServer.Gate.constructor` | server/src/index.ts:38 | The process starts with nothing cached. |
| `LicenseServer.Gate.EnterLicense` | server/src/index.ts:41-65 | The handler's new cache and reply are those of `Activate`, and the invariant holds. |
| `LicenseServer.Gate.ClearLicense` | server/src/index.ts:68-71 | The cache is null and the reply is 200 `{message, tier:"FREE", features:[]}`, whatever the prior state. |
| `LicenseServer.Gate.LicenseState` | server/src/index.ts:73-76 | Changes nothing and answers 200 with `StateView` of the cache. |
| `LicenseServer.Gate.Feature` | server/src/index.ts:78-91 | Changes nothing and answers as `FeatureReply`. |
| `LicenseServer.Gate.Legacy` | server/src/index.ts:94-96 | Changes nothing and answers as `LegacyReply`. |
| `LicenseServer.Gate.Handle` | server/src/index.ts:41-96 | Dispatching a request equals `Step` and keeps the invariant. |
| `NoteMateApp.Merge` | client/src/pages/App.tsx:67-68 | A field the patch carries takes the patch's value, and every other field is kept. `updatedAt` is always the fresh timestamp, even when the patch carries one. |
| `NoteMateApp.PatchById` | client/src/pages/App.tsx:68 | Length is preserved. Every note with the edited id becomes the patch merged into it with the new `updatedAt`. Every other note is unchanged. |
| `NoteMateApp.RemoveId` | client/src/pages/App.tsx:71 | No note with the id is left. Every note with another id is kept. Nothing is added. |
| `NoteMateApp.RemoveIdConcat` | client/src/pages/App.tsx:71 | Deleting distributes over concatenation, so the kept notes keep their order. |
| `NoteMateApp.RemoveIdAbsent` | client/src/pages/App.tsx:71 | Deleting an id that no note has leaves the list as it is. |
| `NoteMateApp.RemoveIdIdempotent` | client/src/pages/App.tsx:71 | Deleting the same id twice is deleting it once. |
| `NoteMateApp.DeleteUndoesNew` | client/src/pages/App.tsx:60-73 | Deleting a note just created under a fresh id restores the previous list. |
| `NoteMateApp.IsPremium` | client/src/pages/App.tsx:15 | Premium iff the license state is an object whose `tier` is the string "PRO". |
| `NoteMateApp.Sanitize` | client/src/pages/App.tsx:95 | Same length as the title. Each letter and digit is kept, and every other character becomes `_`. |
| `NoteMateApp.ExportFileName` | client/src/pages/App.tsx:95 | The name is the title's length plus `.md`. The base holds only letters, digits and `_`. Each letter and digit of the title is kept in place, and every other character becomes `_`. The base agrees with the title exactly where the title has a letter, digit or `_`. |
| `NoteMateApp.SanitizeIdempotent` | client/src/pages/App.tsx:95 | Sanitising an already sanitised title changes nothing. |
| `NoteMateApp.ExportRoundTrip` | client/src/pages/App.tsx:92 | For a single-line title, the title and content are read back unchanged from the blob `ExportContent` builds, `# title\n\ncontent`. |
| `NoteMateApp.ExportDownload` | client/src/pages/App.tsx:87-97 | A file is produced iff a note is being edited and the exportPDF route answered 2xx. Its name is the sanitised title plus `.md` and its content is the markdown blob. |
| `NoteMateApp.AppState.constructor` | client/src/pages/App.tsx:7-10 | The app starts with no notes, no edited note and a null license state. |
| `NoteMateApp.AppState.NewNote` | client/src/pages/App.tsx:60-64 | The untitled, empty note goes in front of the old list and becomes the edited note. The invariant is kept. |
| `NoteMateApp.AppState.UpdateNote` | client/src/pages/App.tsx:65-69 | With no edited note, nothing changes. Otherwise the edited note gets the patch with its own clock reading, and the list is `PatchById` with the edited id and a second reading. The edited note stays in the list, up to its timestamp. |
| `NoteMateApp.AppState.DeleteNote` | client/src/pages/App.tsx:70-73 | The list is `RemoveId`. The edited note is cleared iff it has the deleted id, and otherwise kept. The invariant is kept. |
| `NoteMateApp.AppState.Select` | client/src/pages/App.tsx:163 | Clicking a listed note makes it the edited note, and nothing else changes. |
| `NoteMateApp.AppState.LoadLicenseState` | client/src/pages/App.tsx:56-58 | A fetched state replaces the license state. A failed fetch leaves it. |
| `NoteMateApp.AppState.Export` | client/src/pages/App.tsx:87-97 | Changes nothing and returns `ExportDownload` of the edited note. |
| `EndToEnd.PremiumIffLicensed` | client/src/pages/App.tsx:15 | For any cache satisfying the invariant, the client is premium on the server's `license-state` reply iff a license is cached. |
| `EndToEnd.PremiumMatchesGuard` | server/src/index.ts:73-84 | In every reachable server state, the client's premium flag agrees with whether the exportPDF guard passes. |
| `EndToEnd.ExportNeedsLicense` | client/src/pages/App.tsx:87-97 | In every reachable server state, exporting a note produces a file iff the server holds a license. |
| `EndToEnd.ActivationScenario` | server/src/index.ts:41-91 | Activating "ABC-123" against a service that answers for Ada gives 200 and a PRO record with a generated `host-` id and licensee Ada. darkMode is then served, clearing returns the FREE reply, and darkMode is then refused with 402. |

## Left out

- The Keymint HTTP call itself is not modelled: the axios instance, base URL, bearer header, dotenv loading and the missing-configuration warning. `remote` stands for it.
- Express setup, CORS, body parsing, `app.listen` and the `/health` route are not modelled. They are I/O plumbing.
- LicenseServer.ParseBody: a request body that is JSON `null` or another primitive gets 500 at the root path in the model. In the source, `express.json()` in strict mode rejects it with 400 before the handler runs.
- Express's own routing is not modelled: case-insensitive paths, a tolerated trailing slash, HEAD for GET, 404 for unknown paths. A request is given as the endpoint it reaches, and `None` means no route of the gate matched.
- Concurrent `enter-license` calls can race, and the last write wins. The model runs each handler as one atomic step.
- Host ids from `Math.random`, note ids from `crypto.randomUUID` and timestamps from `new Date()` are parameters. Uniqueness of generated ids is probabilistic and not stated.
- LicenseServer.Activate: for a rejected body, the `error` text is the failing field paths joined by commas. The source sends ZodError's message, which is a JSON dump of all issue details.
- LicenseServer.Activate: the 500 text for a null service answer is the V8 TypeError wording. Other engines word it differently.
- LicenseServer.Activate: a service status of 1xx or 2xx never reaches the error path. Axios resolves 2xx answers, and 1xx answers are never final. Every other three-digit status, 300..999, is passed through.
- LicenseServer.Activate: JSON from the service is kept as its parsed members. This covers a passed-through error body and the stored `licenseeName` and `licenseeEmail` values that `license-state` later writes out. `JSON.stringify` would write integer-like keys first and drop duplicate keys, and the model does not reorder them.
- JSON numbers are integers. No modelled code does arithmetic on them, but JavaScript's floating-point truthiness of `NaN` is not covered.
- Reading a member of a non-object JSON value gives `undefined` in the model. Built-in properties such as `length` are not modelled, because no modelled key is one of them.
- NoteMateApp.Sanitize: JavaScript replaces each UTF-16 code unit, so a character outside the Basic Multilingual Plane becomes `__` in the source. The model works on Unicode scalar values and writes one `_`.
- NoteMateApp.AppState.UpdateNote: the source reads the clock once for the edited note and once more for each patched list entry. The model gives the edited note its own reading, `editNow`, but all patched entries of one update share a single reading, `listNow`.
- NoteMateApp.Merge: a `Partial<Note>` key that is present but `undefined` is treated as absent. In the source it would overwrite the field with `undefined`.
- React rendering, `gatedBtn`, toasts and their timers are not modelled. They are UI.
- localStorage persistence and the initial load from it are not modelled. They are browser I/O.
- The Blob and anchor download is not modelled. It is browser I/O.
- `handleDarkMode`, `handleEnterLicense` and `handleClear` are not modelled. They only call the server and then set UI state.
- client/src/services/api.ts is not part of this model. It holds thin HTTP wrappers with no logic of their own.
