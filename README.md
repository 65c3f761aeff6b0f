# Samarth Kisan: profile store and onboarding wizard

This project is a Dafny model of the two pieces of sequential logic in the
Samarth Kisan farmer-advisory web application.

- **The local profile store** (`services/dbService.ts`). Farmer profiles are
  kept in the browser's storage under the key `'sk_user_' + email`. The store
  has five operations:
  - read a record;
  - overwrite a record, stamping `lastSync` and broadcasting a `db_sync`
    event that carries the e-mail;
  - record a history event: read, prepend a freshly stamped event, keep the
    50 newest, and save;
  - test whether a record exists;
  - delete an account.
- **The onboarding wizard** (`components/Onboarding.tsx`). It has a step
  counter from 0 (start page) to 5 (finish page) and a draft profile. Each
  step merges fields into the draft. Leaving the finish page hands the draft
  on, marked `onboarded`.

Files:

- `types.dfy` (module `Types`): the records. `FarmerProfile`,
  `HistoryEvent`, the event details a caller supplies (`EventDetails`), and
  `PartialProfile` (a profile whose every field may be absent; it stands for
  both the wizard's draft and an update merged into it). The event kind
  `ONBOARDING` is the constructor `OnboardingDone`.
- `history.dfy` (module `History`): the bounded, newest-first history
  (`Truncate` is `slice(0, 50)`, `PrependEvent` is
  `[newEvent, ...history].slice(0, 50)`), plus what repeated appends do.
- `profile_store.dfy` (module `ProfileStore`): the storage as a map from
  storage key to record. The functions `Lookup`, `Saved`, `Deleted` and
  `AfterAddHistoryEvent` specify each operation, and lemmas prove their
  properties. The class `DbService` holds the storage and a ghost log of
  broadcasts. Its methods perform the operations in place and are proved
  against those functions.
- `onboarding.dfy` (module `Onboarding`): `Merge` (object spread), the step
  transitions, the progress indicator, and the class `Wizard`. The class
  has fields `step` and `draft` and one method per transition.

Inputs the application takes from the browser are parameters:
- the current time (`new Date()`), one reading per call site;
- the generated event id (`Math.random()`);
- the outcome of the geolocation request.

The broadcast is modelled as appending the e-mail to the ghost sequence
`DbService.notifications`.

Three behaviours of the code worth knowing:
- `getUserProfile` has no error handling. A stored value that is not valid
  JSON makes `JSON.parse` throw (`services/dbService.ts:15`); it is not
  treated as "absent". The model stores structured records, so it has no
  malformed records at all.
- Only `addHistoryEvent` trims the history to 50 entries.
  `saveUserProfile` stores whatever history it is given. The bound is
  proved for the record that `addHistoryEvent` writes, not as an invariant
  of the whole store.
- `deleteAccount` does not broadcast.

Every record sits under the key of its own e-mail address
(`ProfileStore.WellKeyed`, the class invariant of `DbService`).
`addHistoryEvent` saves under the key of the stored record's e-mail. That
key is the caller's key only because of this invariant.

## Model

| member | source | states |
|---|---|---|
| `History.Truncate` | services/dbService.ts:47 | the result is a prefix of the list, at most 50 long; a list of 50 or fewer entries is kept whole |
| `History.PrependEvent` | services/dbService.ts:47 | the new history has length min(old + 1, 50); entry 0 is the new event; the rest is a prefix of the old history in its order, so old positions 49 and beyond are dropped |
| `History.AppendEventsIsBoundedReverse` | services/dbService.ts:47 | recording a run of events one after another leaves the run, newest first, in front of the old history, the whole cut to 50 entries |
| `History.AppendEventsSnoc` | services/dbService.ts:47 | recording one more event after a run equals prepending it, with the cut to 50, to the history the run left |
| `History.AppendEventsNewestFirst` | services/dbService.ts:47 | after k appends the length is min(old + k, 50), and entry i is the i-th most recently recorded event |
| `History.OldestEvicted` | services/dbService.ts:47 | after more than 50 distinct appends the history has exactly 50 entries and the first appended event is no longer in it |
| `ProfileStore.StorageKey` | services/dbService.ts:14 | the key is the prefix `sk_user_` followed by the e-mail, which can be read back from it |
| `ProfileStore.StorageKeyInjective` | services/dbService.ts:14 | two different e-mail addresses never share a storage key |
| `ProfileStore.LookupOwnEmail` | services/dbService.ts:26 | in well-keyed storage, the record found for an e-mail belongs to that e-mail |
| `ProfileStore.SaveThenLookup` | services/dbService.ts:21-26 | reading after a save returns the saved record in every field except `lastSync`, which is the save time whatever the caller supplied |
| `ProfileStore.SaveLeavesOthers` | services/dbService.ts:26 | a save does not change the record of any other e-mail |
| `ProfileStore.SaveKeepsWellKeyed` | services/dbService.ts:26 | a save keeps every record under its own e-mail's key |
| `ProfileStore.DeleteRemoves` | services/dbService.ts:63-65 | after a delete no record is found, whether or not one existed; deleting twice equals deleting once; keying is preserved |
| `ProfileStore.DeleteLeavesOthers` | services/dbService.ts:63-65 | a delete does not change the record of any other e-mail |
| `ProfileStore.AddToMissingIsNoop` | services/dbService.ts:36-37 | recording an event for an e-mail with no record leaves the storage unchanged |
| `ProfileStore.AddHistoryEventShape` | services/dbService.ts:39-50 | the new event (the caller's kind, title, details, metadata with the generated id and timestamp) is first; the old history (absent counts as empty) follows in order; the length is min(old + 1, 50); `lastSync` is the save time; every other field is unchanged |
| `ProfileStore.AddLeavesOthers` | services/dbService.ts:45-50 | recording an event for one e-mail does not change the record of any other |
| `ProfileStore.DbService.constructor` | services/dbService.ts:9 | the store starts over the well-keyed storage earlier sessions left, with no broadcasts yet |
| `ProfileStore.DbService.GetUserProfile` | services/dbService.ts:13-16 | returns the stored record, or None exactly when no record is stored under the e-mail's key; a returned record has that e-mail |
| `ProfileStore.DbService.SaveUserProfile` | services/dbService.ts:21-30 | the storage becomes `Saved(old, p, now)`; reading `p.email` gives `p` with `lastSync = now`; other e-mails are unchanged; exactly one broadcast, carrying `p.email`, is logged |
| `ProfileStore.DbService.AddHistoryEvent` | services/dbService.ts:35-51 | the storage becomes `AfterAddHistoryEvent(old, ...)`; one broadcast carrying the e-mail if a record existed, none otherwise; other e-mails are unchanged |
| `ProfileStore.DbService.UserExists` | services/dbService.ts:56-58 | true exactly when a record is stored for the e-mail |
| `ProfileStore.DbService.DeleteAccount` | services/dbService.ts:63-65 | the storage becomes `Deleted(old, email)`, so no record is found afterwards; other e-mails are unchanged; no broadcast |
| `Onboarding.MergeIsSpread` | components/Onboarding.tsx:30-32 | seen as a map from present keys to values, the merged draft is the old draft's map united with the update's, the update winning on shared keys: exactly the fields present in the update are replaced and every other draft field is kept |
| `Onboarding.FieldsDetermineProfile` | components/Onboarding.tsx:30-32 | two drafts with the same present keys and values are equal, so the key-map view used for the spread loses nothing |
| `Onboarding.MergeAlgebra` | components/Onboarding.tsx:30-32 | an empty update changes nothing; the same update twice equals once; two updates in a row equal one combined update |
| `Onboarding.Completed` | components/Onboarding.tsx:36 | the handed-over profile has `onboarded = true` and is otherwise the draft |
| `Onboarding.NavigateStaysInRange` | components/Onboarding.tsx:34-41 | any sequence of Next/Prev clicks from a step in 0..5 ends in 0..5 |
| `Onboarding.RepeatedClicks` | components/Onboarding.tsx:34-41 | k Next clicks reach min(step + k, 5); k Prev clicks reach max(step - k, 0) |
| `Onboarding.ProgressIndicator` | components/Onboarding.tsx:73-77 | on steps 0..5 the bars show exactly on steps 1 to 4; the lit bars form a leading run; when shown, the number lit equals the step |
| `Onboarding.Wizard.constructor` | components/Onboarding.tsx:15-23 | step 0 and a draft with language `en`, field size 1, the default soil, water source and crop, `onboarded` false, and no e-mail, location, history or `lastSync` |
| `Onboarding.Wizard.UpdateProfile` | components/Onboarding.tsx:30-32 | the draft becomes the merge of the old draft and the update, i.e. its key map is the old key map united with the update's; the step is unchanged |
| `Onboarding.Wizard.Advance` | components/Onboarding.tsx:34-37 | below step 5, moves exactly one step on and does not complete; at step 5, stays and completes with the captured draft marked onboarded; the draft is unchanged |
| `Onboarding.Wizard.NextStep` | components/Onboarding.tsx:34-37 | below step 5, moves exactly one step on and does not complete; at step 5, stays and completes with the current draft marked onboarded |
| `Onboarding.Wizard.PrevStep` | components/Onboarding.tsx:39-41 | moves one step back when above 0, otherwise stays at 0; the draft is unchanged |
| `Onboarding.Wizard.HandleLocation` | components/Onboarding.tsx:45-59 | advances as Next does whether the position is found, refused, or geolocation is unavailable; only a found position sets the location (coordinates, no address) and no other field |
| `Onboarding.Wizard.GoToDashboard` | components/Onboarding.tsx:283 | hands over the current draft with `onboarded = true` and no other change, and changes no state |

## Left out

- Browser storage and JSON are modelled as a map from key to structured
  record, and a save and read-back as exact. Two things are not modelled:
  JSON storing a non-finite `fieldSize` as `null` (the number input yields
  `""` for an empty or invalid entry, which `Number` turns into `0`, but an
  entry that overflows, such as `1e400`, gives Infinity), and the `JSON.parse` exception on a corrupt stored
  value.
- Keys in browser storage other than this store's, and writers other than
  these operations, are not modelled. The storage a session starts from is
  assumed well keyed.
- The clock and `Math.random()` ids are parameters. Nothing is claimed
  about id uniqueness, because the code does not guarantee it.
- `History.OldestEvicted`: assumes the appended events are pairwise
  distinct, because the random ids may collide.
- Broadcast delivery to `db_sync` listeners is browser behaviour. Only the
  fact and payload of each broadcast are logged.
- React rendering, the scroll effect (`components/Onboarding.tsx:26-28`),
  state batching and double clicks are not modelled; each handler runs to
  completion before the next.
- `Onboarding.Wizard.HandleLocation` is atomic, but in the code the
  geolocation callbacks (`components/Onboarding.tsx:47-55`) run some time
  after the click. They call the `nextStep` captured at click time, so they
  set the step to the click-time step + 1 and complete, if at all, with the
  click-time draft. A late callback can therefore undo navigation the user
  did in the meantime; the model keeps only the captured draft. The request
  is made without options, so it has no timeout: if the permission prompt
  is never answered, neither callback runs and the step stays at 2, an
  outcome `Onboarding.GeoOutcome` does not include.
- Two modelled paths are not reached from the interface. No element calls
  `prevStep` (`components/Onboarding.tsx:39-41`), so the Prev clicks covered
  by `Onboarding.NavigateStaysInRange` and `Onboarding.RepeatedClicks` cannot
  occur. `nextStep`'s completion branch (line 36) is never taken either,
  because step 5 offers only the line-283 button.
- `navigator.geolocation` is reduced to its outcome.
- An update that names a field with the value `undefined` (which object
  spread would copy) is not modelled. An absent field stands for a missing
  key.
- `constants.ts` is not part of this model. The defaults `SOIL_TYPES[0]`,
  `WATER_SOURCES[0]` and `CROP_TYPES[0]` are constructor parameters.
- `fieldSize`, latitude and longitude are JavaScript floats, modelled as
  `real`. Nothing numeric is claimed about them.
- The event `metadata` (an arbitrary AI result) is kept as opaque text.
- Turning the completed draft into a stored profile (`App.tsx:50-67`) is
  not part of this model. Neither are the AI service calls, the other
  screens, speech, photos, the login form, and the translation tables.
