# Health-Data-iOS: a verified model of the collection and participation logic

The app signs a participant in, reads the latest sample of each physiological
type from the platform health store, converts samples into the upload model
and, once started, runs a collection in the background 60 seconds after
starting and then 60 seconds after each collection finishes.
This project models the parts of it with logic of their own, one Dafny
module per source file:

| module | file | models |
|---|---|---|
| `BackgroundTasks` | `background_tasks.dfy` | `BackgroundTaskManager`: running flag, pending work item, background-execution grant, the firing / collection / re-arm cycle |
| `ProjectCodec` | `project.dfy` | `Project`, `ProjectArrayItem`, `ProjectResponse`: JSON coding of the `["java.util.ArrayList", [...]]` envelope and `projectList` |
| `HealthKitTypes`, `HealthModel` | `healthkit_types.dfy`, `healthdata.dfy` | sample vocabulary; `HealthData.from`, `getMeasurementType`, `getUnit`, `getUnitString` |
| `HealthKitManagerModel` | `healthkit_manager.dfy` | `allTypes`, `requestAuthorization`, `fetchData`, `fetchLatestData`, `preferredUnit` |
| `Participation` | `participation_view_model.dfy` | `ParticipationViewModel`: flags, error messages, project list, stored user id |
| `ParticipationScreen` | `participation_view.dfy` | `ParticipationView`: validity rules, source toggles, agreement overlay, provider buttons, `resetForm` |
| `Wrappers` | `wrappers.dfy` | `Option`, `Result`, `Outcome` |

Objects whose fields the app updates in place (`BackgroundTaskManager`,
`HealthKitManager`, `ParticipationViewModel`, the view's `@State` fields)
are classes whose methods state the whole new state; the decoders and
mappings are functions with lemmas about them.

The background manager is driven by explicit events on an abstract clock:
`StartBackgroundTaskWithDelay`, `AdvanceClock`, `Fire` (the main queue runs
the pending item and a grant is requested), `Expire` (the grant's expiry
handler), `Finish` (the collection task completes, the grant is released and
the next firing is armed) and `Deinit`. Every work item ever handed to the
queue is kept with its due time and its cancelled / started flags, so "at
most one live item" is an invariant (`LiveOnlyAt` in `Valid()`), and every
identifier passed to the system's `endBackgroundTask` is logged, so "each
grant is released at most once" is one too. `SingleLoop()` holds while the
loop is started only once. Starting again while a collection is in flight
arms a second item. If that item fires before the first collection
finishes, its grant overwrites the first one, which is then never released
(`Fire` appends it to the ghost `abandoned` log, which `Valid()` keeps
disjoint from the release log; `DoubleStartLeaksGrant` plays this out). If
the first collection finishes first, its re-arm cancels the second item and
nothing is lost.

The code has no delivery watermark, backfill or lock-state handling: a
collection reads `lastProjectId`, fetches, sends and swallows every error,
and the model does the same.

Two observations the proofs make explicit:
- `allTypes` asks for diastolic blood pressure, which `getMeasurementType`
  does not map (it reaches `fatalError`). `CollectedDiastolicIsNotConvertible`
  shows that once the store holds such a sample, the collected samples
  include one `HealthData.from` cannot convert. No caller of `from` appears
  in the files modelled, so this is stated as a property, not as an error.
- By Swift case name, four identifiers are renamed by `getMeasurementType`
  (systolic pressure, body mass and the two energies), not two.

## Model

| member | source | states |
|---|---|---|
| `BackgroundTasks.Arm` | HealthData/Utils/BackgroundTaskManager.swift:31-55 | one item is appended and becomes `next`, live; the previously installed item is no longer live; its properties under `LiveOnlyAt` are in `ArmLeavesOneLive` |
| `BackgroundTasks.ArmLeavesOneLive` | HealthData/Utils/BackgroundTaskManager.swift:31-55 | scheduling cancels the previously installed item and installs one new item due at the given time; afterwards that new item is the only live one, and old items change only by being cancelled |
| `BackgroundTasks.EndTaskIdempotent` | HealthData/Utils/BackgroundTaskManager.swift:100-105 | ending releases exactly the held grant (none when `.invalid`), always leaves `.invalid`, and ending twice equals ending once |
| `BackgroundTasks.EndTask` | HealthData/Utils/BackgroundTaskManager.swift:100-105 | the grant always ends `.invalid` and the release log only grows, by one entry iff a grant was held; idempotence is `EndTaskIdempotent` |
| `BackgroundTasks.ExpiryAndCompletionReleaseOnce` | HealthData/Utils/BackgroundTaskManager.swift:39-47 | the expiry handler followed by the completion path (or the reverse) releases a held grant exactly once |
| `BackgroundTasks.StoredProjectId` | HealthData/Utils/BackgroundTaskManager.swift:67 | the stored "lastProjectId" when present, 0 when the key is missing |
| `BackgroundTasks.Collect` | HealthData/Utils/BackgroundTaskManager.swift:63-98 | nothing is attempted iff the stored id is 0; a fetch failure carries the fetch's error, a send failure the send's error after a successful fetch; see `CollectNeedsProject`, `CollectSendsOnlyAfterFetch` |
| `BackgroundTasks.CollectNeedsProject` | HealthData/Utils/BackgroundTaskManager.swift:66-71 | no fetch is attempted exactly when the stored project id is 0, including when none is stored |
| `BackgroundTasks.CollectSendsOnlyAfterFetch` | HealthData/Utils/BackgroundTaskManager.swift:73-97 | the send is attempted iff a project is stored and the fetch succeeded; delivery iff both calls succeed; a fetch error is caught and reported as such |
| `BackgroundTasks.BackgroundTaskManager.constructor` | HealthData/Utils/BackgroundTaskManager.swift:3-17 | not running, nothing scheduled, grant `.invalid` |
| `BackgroundTasks.BackgroundTaskManager.AdvanceClock` | HealthData/Utils/BackgroundTaskManager.swift:55 | time only moves forward and nothing else changes |
| `BackgroundTasks.BackgroundTaskManager.StartBackgroundTaskWithDelay` | HealthData/Utils/BackgroundTaskManager.swift:19-26 | sets `isRunning` and arms exactly one new item due 60 s from now, cancelling any previous one; grant untouched |
| `BackgroundTasks.BackgroundTaskManager.ScheduleNextCollection` | HealthData/Utils/BackgroundTaskManager.swift:28-56 | a no-op when not running; otherwise cancels the previous item and arms one due after the delay |
| `BackgroundTasks.BackgroundTaskManager.Fire` | HealthData/Utils/BackgroundTaskManager.swift:35-45 | a due live item starts: it takes a fresh grant or `.invalid`, starts one collection and leaves nothing live; a grant still held is overwritten and logged as abandoned, which cannot happen while the loop was single |
| `BackgroundTasks.BackgroundTaskManager.Expire` | HealthData/Utils/BackgroundTaskManager.swift:39-42 | the expiry handler releases the held grant, if any, and may change only the grant and the release log |
| `BackgroundTasks.BackgroundTaskManager.Finish` | HealthData/Utils/BackgroundTaskManager.swift:45-51 | the collection result follows the stored id and outcomes, the grant is released, and the loop is re-armed 60 s later whatever the result; no grant is abandoned |
| `BackgroundTasks.BackgroundTaskManager.EndBackgroundTask` | HealthData/Utils/BackgroundTaskManager.swift:100-105 | releases the held grant if not `.invalid`, then sets it `.invalid`, keeping the no-double-release invariant |
| `BackgroundTasks.BackgroundTaskManager.Deinit` | HealthData/Utils/BackgroundTaskManager.swift:107-111 | cancels exactly the pending item, so none is live, and leaves the grant `.invalid`; only the item log, the grant and the release log may change, and the release log does not |
| `BackgroundTasks.DoubleStartLeaksGrant` | HealthData/Utils/BackgroundTaskManager.swift:19-56 | starting twice, with the second item firing during the first collection, issues two grants and releases only grant 2 |
| `BackgroundTasks.OneCycle` | HealthData/Utils/BackgroundTaskManager.swift:19-56 | start, fire and finish (with or without expiry first): the next firing is due 60 s after the collection completes (here start + 120) for every outcome, and a given grant appears once in the release log |
| `ProjectCodec.DecodeProjectReadsKeys` | HealthData/Models/Project.swift:3-14 | a decoded project's id is the number under "projectId" and each other field is under its own name |
| `ProjectCodec.DecodeProjectIgnoresOtherKeys` | HealthData/Models/Project.swift:9-14 | keys that are not coding keys, such as "id", do not affect decoding |
| `ProjectCodec.EncodeProject` | HealthData/Models/Project.swift:3-14 | an object with exactly the four coding keys; decoding it back is `ProjectRoundTrip` |
| `ProjectCodec.DecodeProject` | HealthData/Models/Project.swift:3-14 | a decoded id is the number under "projectId"; a missing "projectId" is keyNotFound; a non-object never decodes; the other fields are in `DecodeProjectReadsKeys` |
| `ProjectCodec.DecodeProjectIdErrors` | HealthData/Models/Project.swift:4-10 | a null "projectId" is valueNotFound and an id outside `Int`'s range is dataCorrupted, both for that key |
| `ProjectCodec.DecodeProjectNullStringField` | HealthData/Models/Project.swift:5-13 | a null name, description or creation date is valueNotFound for the first such key in declaration order |
| `ProjectCodec.DecodeProjectNeedsId` | HealthData/Models/Project.swift:9-10 | an object without "projectId" fails with keyNotFound for that key |
| `ProjectCodec.ProjectRoundTrip` | HealthData/Models/Project.swift:3-14 | decoding an encoded project gives it back |
| `ProjectCodec.DecodeProjectSeq` | HealthData/Models/Project.swift:41 | a project array decodes iff every element does, to the element-wise decoding in order |
| `ProjectCodec.DecodeProjects` | HealthData/Models/Project.swift:41 | a non-array is typeMismatch; an array decodes iff every element decodes as a project, giving them in order |
| `ProjectCodec.EncodeProjects` | HealthData/Models/Project.swift:60 | a project array encodes as a JSON array of the same length |
| `ProjectCodec.ProjectsRoundTrip` | HealthData/Models/Project.swift:41-60 | decoding an encoded `[Project]` gives it back |
| `ProjectCodec.ProjectSeqRoundTrip` | HealthData/Models/Project.swift:41-60 | decoding an encoded project array gives it back |
| `ProjectCodec.DecodeItem` | HealthData/Models/Project.swift:37-52 | accepted iff the value is a string or an array whose every element decodes as a project; a `.string` item came from that string, a `.projectArray` from an array with one element per project, each decoding to it; every rejection is typeMismatch |
| `ProjectCodec.EncodeItem` | HealthData/Models/Project.swift:54-62 | a string item is the bare string, a project array a bare array of the same length; the round trip is `ItemRoundTrip` |
| `ProjectCodec.ItemRoundTrip` | HealthData/Models/Project.swift:37-62 | decode after encode is the identity on both item cases |
| `ProjectCodec.ScalarsAreNotItems` | HealthData/Models/Project.swift:43-50 | null, booleans, numbers and objects are rejected with typeMismatch |
| `ProjectCodec.DecodeItemSeq` | HealthData/Models/Project.swift:19 | the `projects` array decodes iff every item does, element-wise and in order |
| `ProjectCodec.DecodeResponse` | HealthData/Models/Project.swift:17-19 | a decoded response comes from an object whose "projects" is an array with one decodable item per element, in order; a missing key is keyNotFound and a null one valueNotFound |
| `ProjectCodec.ResponseNullProjects` | HealthData/Models/Project.swift:17-19 | `{"projects": null}` fails with valueNotFound for "projects", whatever else the object holds |
| `ProjectCodec.EncodeResponse` | HealthData/Models/Project.swift:17-19 | the synthesized encoder writes exactly the key "projects", holding every item encoded in order |
| `ProjectCodec.ResponseRoundTrip` | HealthData/Models/Project.swift:17-19 | decoding an encoded response gives it back |
| `ProjectCodec.ProjectList` | HealthData/Models/Project.swift:21-30 | a non-empty list is exactly the payload of item 1; see `ProjectListSound`, `ProjectListProjection`, `EnvelopeYieldsProjects` |
| `ProjectCodec.ProjectListSound` | HealthData/Models/Project.swift:21-30 | every listed project comes from the response: a non-empty list is exactly the payload of item 1, and a response holding only strings lists nothing |
| `ProjectCodec.ProjectListProjection` | HealthData/Models/Project.swift:22-28 | element 0 and every element after index 1 are ignored |
| `ProjectCodec.EnvelopeYieldsProjects` | HealthData/Models/Project.swift:17-30 | the backend envelope `[tag, [projects]]` decodes and its `projectList` is exactly those projects |
| `HealthModel.GetMeasurementType` | HealthData/Models/HealthData.swift:64-91 | defined exactly on the eleven mapped identifiers, never sleep analysis; names, range and injectivity are `MeasurementTypeNames`, `MeasurementTypeRange`, `MeasurementTypeInjective` |
| `HealthModel.GetUnit` | HealthData/Models/HealthData.swift:93-118 | count exactly for steps and sleep, count/min exactly for heart and respiratory rate, kcal exactly for the two energies; agreement with `preferredUnit` is `PreferredUnitAgreesWithGetUnit` |
| `HealthModel.GetUnitString` | HealthData/Models/HealthData.swift:120-145 | never empty, "kcal" exactly for the two energies; distinctness is `UnitStringsDistinct` |
| `HealthModel.MeasurementTypeDomain` | HealthData/Models/HealthData.swift:64-90 | the mapping is defined exactly on the eleven listed identifiers; diastolic pressure and all others reach `fatalError` |
| `HealthModel.MeasurementTypeNames` | HealthData/Models/HealthData.swift:64-87 | systolic, body mass and the two energy identifiers are renamed; every other mapped identifier maps to the case of the same name |
| `HealthModel.MeasurementTypeRange` | HealthData/Models/HealthData.swift:64-90 | sleep analysis is never produced; every other measurement type is |
| `HealthModel.MeasurementTypeInjective` | HealthData/Models/HealthData.swift:64-87 | distinct mapped identifiers give distinct measurement types |
| `HealthModel.UnitStringsDistinct` | HealthData/Models/HealthData.swift:120-145 | two types share a unit string iff they are equal or are the two energies |
| `HealthModel.UnitStringExamples` | HealthData/Models/HealthData.swift:120-145 | heart rate is "bpm", sleep analysis "hours", both energies "kcal" |
| `HealthModel.QuantitySamples` | HealthData/Models/HealthData.swift:43 | the filter keeps only quantity samples |
| `HealthModel.Measurements` | HealthData/Models/HealthData.swift:42-54 | one measurement per quantity sample, position by position in the filtered order |
| `HealthModel.From` | HealthData/Models/HealthData.swift:40-62 | provider is Apple, user id is the stored one or "", no more measurements than samples, each carries its type's unit string and none is sleep analysis |
| `HealthModel.QuantitySamplesSingleton` | HealthData/Models/HealthData.swift:43 | a lone sample is kept iff it is a quantity sample |
| `HealthModel.QuantitySamplesAppend` | HealthData/Models/HealthData.swift:42-43 | the filter distributes over concatenation, so relative order is kept |
| `HealthModel.QuantitySamplesLength` | HealthData/Models/HealthData.swift:42-43 | the filter never lengthens its input |
| `HealthModel.MeasurementsAppend` | HealthData/Models/HealthData.swift:42-54 | conversion distributes over concatenation: order preserving |
| `HealthModel.MeasurementsSingleton` | HealthData/Models/HealthData.swift:42-54 | a lone sample yields its measurement iff it is a quantity sample |
| `HealthModel.ToMeasurement` | HealthData/Models/HealthData.swift:43-53 | the closure for one quantity sample: its mapped type, the quantity in `getUnit` of the type, the non-empty `getUnitString` of the type, the start date |
| `HealthModel.MeasurementOfSample` | HealthData/Models/HealthData.swift:45-53 | each measurement's type is its sample's mapped type, its date the sample's start date, its value the quantity in `getUnit` of the type |
| `HealthKitManagerModel.AllTypes` | HealthData/Utils/HealthKitManager.swift:11-29 | only resolvable listed types are ever requested; the set is empty iff some listed lookup fails, and otherwise holds all thirteen types, twelve of them quantity types |
| `HealthKitManagerModel.ListedTypesShape` | HealthData/Utils/HealthKitManager.swift:12-28 | thirteen distinct types, twelve of them quantity types, sleep analysis the one category type |
| `HealthKitManagerModel.LatestOf` | HealthData/Utils/HealthKitManager.swift:74-91 | none iff no sample of the type; otherwise a sample of the type with the greatest end date |
| `HealthKitManagerModel.FetchLatestData` | HealthData/Utils/HealthKitManager.swift:72-96 | an error iff the query fails; nil iff the store has no sample of that type; otherwise its latest sample by end date |
| `HealthKitManagerModel.FetchData` | HealthData/Utils/HealthKitManager.swift:46-70 | only quantity types in the set are queried; each contributes at most its latest sample and failures or nil contribute nothing; every type that finds a sample contributes it |
| `HealthKitManagerModel.FetchAllHealthData` | HealthData/Utils/HealthKitManager.swift:42-44 | `fetchData` over `allTypes`: at most twelve samples, each the latest of a listed quantity type |
| `HealthKitManagerModel.ContributingBounded` | HealthData/Utils/HealthKitManager.swift:49-53 | the number of contributing types is at most the number of quantity types, which is at most the number of types |
| `HealthKitManagerModel.CategoryTypesContributeNothing` | HealthData/Utils/HealthKitManager.swift:49-50 | adding a category type such as sleep analysis changes nothing collected |
| `HealthKitManagerModel.PreferredUnit` | HealthData/Utils/HealthKitManager.swift:98-125 | unlisted identifiers read as count; mmHg exactly for the two pressures, kcal exactly for the two energies; see `PreferredUnitCases` |
| `HealthKitManagerModel.PreferredUnitCases` | HealthData/Utils/HealthKitManager.swift:98-124 | heart rate and respiratory rate are count/min, unlisted identifiers count, both pressures mmHg |
| `HealthKitManagerModel.PreferredUnitAgreesWithGetUnit` | HealthData/Utils/HealthKitManager.swift:98-124 | wherever `getMeasurementType` is defined, `preferredUnit` equals `getUnit` of the mapped type (HealthData.swift:93-118) |
| `HealthKitManagerModel.CollectedDiastolicIsNotConvertible` | HealthData/Utils/HealthKitManager.swift:22 | a diastolic sample in the store is collected by `fetchData(allTypes)` and cannot be converted by `from` |
| `HealthKitManagerModel.HealthKitManager.constructor` | HealthData/Utils/HealthKitManager.swift:8-11 | not authorized initially, nothing requested yet |
| `HealthKitManagerModel.HealthKitManager.RequestAuthorization` | HealthData/Utils/HealthKitManager.swift:31-40 | throws notAvailable when health data is unavailable, passes on the store's error, and sets `isAuthorized` only after success; when health data is available the store is asked to read exactly `allTypes` |
| `Participation.ErrorMessage` | HealthData/ViewModels/ParticipationViewModel.swift:31-51 | a non-API error shows its description; an API error shows one of the four fixed messages; which error gets which is `ErrorMessageCases` |
| `Participation.ErrorMessageCases` | HealthData/ViewModels/ParticipationViewModel.swift:31-51 | authenticationError shows the authentication-failed message, networkError the network message, fetchError the fetch message; other API errors the unknown-error message, other errors their description |
| `Participation.ApiMessageIgnoresDescription` | HealthData/ViewModels/ParticipationViewModel.swift:35-44 | an API error's message does not depend on its description |
| `Participation.ApiMessagesDistinct` | HealthData/ViewModels/ParticipationViewModel.swift:35-41 | the three specific messages are pairwise different |
| `Participation.ProjectsErrorMessage` | HealthData/ViewModels/ParticipationViewModel.swift:105 | the project-list message is the fixed prefix followed by the error's description |
| `Participation.UserDefaultsStore.constructor` | HealthData/ViewModels/ParticipationViewModel.swift:67 | the "userId" default the view model writes, starting from the given stored value (absent when never written) |
| `Participation.ParticipationViewModel.constructor` | HealthData/ViewModels/ParticipationViewModel.swift:5-9 | all flags false, message empty, no projects |
| `Participation.ParticipationViewModel.BeginRequest` | HealthData/ViewModels/ParticipationViewModel.swift:14-18 | on entry: loading, neither banner shown, message and projects unchanged |
| `Participation.ParticipationViewModel.CompleteWithSuccess` | HealthData/ViewModels/ParticipationViewModel.swift:27-30 | loading ends and success shows; error flag and message unchanged |
| `Participation.ParticipationViewModel.CompleteWithError` | HealthData/ViewModels/ParticipationViewModel.swift:31-51 | loading ends, the error shows with the mapped message; success flag unchanged |
| `Participation.ParticipationViewModel.Authenticate` | HealthData/ViewModels/ParticipationViewModel.swift:13-53 | afterwards not loading and exactly one banner; success iff sign-in and fetch both succeed, keeping the message; otherwise the first error's message |
| `Participation.ParticipationViewModel.AuthenticateAndFetchHealth` | HealthData/ViewModels/ParticipationViewModel.swift:55-95 | as above for the combined reply; the user id is stored only on success and equals the signed-in user's |
| `Participation.ParticipationViewModel.FetchProjects` | HealthData/ViewModels/ParticipationViewModel.swift:97-109 | success replaces the projects; failure keeps them, shows the error with the prefixed message |
| `ParticipationScreen.AgreementFor` | HealthData/Views/ParticipationView.swift:199-226 | a button shows the terms exactly when it is the health-data or terms button; see `AgreementForCases` |
| `ParticipationScreen.ParticipationView.IsAgreementValid` | HealthData/Views/ParticipationView.swift:36-38 | a valid agreement has every consent toggle on; the converse is `AgreementValidIffEveryConsent` |
| `ParticipationScreen.ParticipationView.IsFormValid` | HealthData/Views/ParticipationView.swift:41-44 | a valid form has a valid agreement and non-empty credentials; the converse is `FormValidIffCredentialsAndAgreement` |
| `ParticipationScreen.AgreementForCases` | HealthData/Views/ParticipationView.swift:196-228 | the health-data and terms buttons both select the terms; privacy and location select their own |
| `ParticipationScreen.AgreementValidIffEveryConsent` | HealthData/Views/ParticipationView.swift:36-38 | the agreement is valid iff every consent toggle is on |
| `ParticipationScreen.FormValidIffCredentialsAndAgreement` | HealthData/Views/ParticipationView.swift:41-44 | the form is valid iff email and password are non-empty and the agreement is valid; so form validity implies agreement validity |
| `ParticipationScreen.ParticipationView.OverlayType` | HealthData/Views/ParticipationView.swift:66 | the overlay shows the selected agreement; it shows the terms iff the terms or nothing is selected |
| `ParticipationScreen.ParticipationView.constructor` | HealthData/Views/ParticipationView.swift:6-33 | every field empty or false, both sources off, bound to its view model |
| `ParticipationScreen.ParticipationView.SetConsent` | HealthData/Views/ParticipationView.swift:198-222 | a consent toggle sets its own consent and may change no other field; switching one off invalidates the agreement, switching one on validates it iff the other three are on |
| `ParticipationScreen.ParticipationView.SetSamsungHealth` | HealthData/Views/ParticipationView.swift:167-175 | turning Samsung on turns Apple off; turning it off is ignored; never both on |
| `ParticipationScreen.ParticipationView.SetAppleHealth` | HealthData/Views/ParticipationView.swift:177-185 | turning Apple on turns Samsung off; turning it off is ignored; never both on |
| `ParticipationScreen.ParticipationView.ShowAgreement` | HealthData/Views/ParticipationView.swift:199-226 | selects the button's agreement, which the overlay then shows, and presents the overlay |
| `ParticipationScreen.ParticipationView.PressProviderButton` | HealthData/Views/ParticipationView.swift:135-143 | starts sign-in iff the agreement is valid; once started, success stores the signed-in user's id and failure keeps the id and shows the mapped message; otherwise shows the consent message and leaves loading, success and the stored id alone; the project list never changes |
| `ParticipationScreen.ParticipationView.ResetForm` | HealthData/Views/ParticipationView.swift:232-242 | clears credentials, consents, provider and sources; afterwards neither the form nor the agreement is valid; the rest is unchanged |

## Left out

- APIService (HealthData/Utils/APIService.swift): the sign-in flows, networking and HTTP status check are library code; the view model receives their replies as opaque `Result`/`Outcome` values.
- `fetchAllHealthData(projectId:)` and `registerHealthData(_:projectId:)`, called by the collection, are not defined in the files modelled; they are opaque outcomes that succeed or fail.
- Location services, WatchConnectivity, the app entry point, the agreement overlay and modal views are platform glue or rendering.
- Numeric values: `doubleValue(for:)` and `HKUnit` arithmetic are floating point in the health library; a value is the pair of its opaque quantity and the unit tag it is read in.
- Concurrency: `DispatchQueue`, `Task`, `MainActor` and `weak self` become sequential events; the deferred `DispatchQueue.main.async` updates in `requestAuthorization` and `fetchProjects` take effect at once.
- Logging, including the pretty-printed JSON dump before sending, is not modelled.
- The background-notification observer is not modelled; its handler does nothing.
- JSON text syntax and non-integral numbers are not modelled: values are an abstract tree with integral numbers.
- Decoding errors carry only the failing coding key ("" for the value itself), not Swift's full `codingPath` or debug description.
- `LatestOf`: on an end-date tie the store's choice is unspecified; the model takes the first such sample in store order.
- `FetchData`: Swift's set iteration order is unspecified; the method picks elements in an arbitrary order and its contract holds for every order.
- Grant identifiers: the system is modelled as handing out fresh identifiers (1, 2, ...); reuse of identifiers after release is not modelled.
- `BackgroundTasks.BackgroundTaskManager.Deinit` requires no collection in flight: the collection task holds the manager strongly, so it cannot be deallocated mid-collection; events after `Deinit` are not modelled.
- The password-visibility toggle and the credential text fields (`formSection`, which the body does not render) are plain bindings; only the consent toggles are modelled as a method.
- The view's `showSuccessModal`, `showInvalidModal` and `showSyncErrorModal` flags are declared but never read or written, so the model omits them; closing the agreement overlay belongs to the overlay view.
