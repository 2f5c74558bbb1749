# MedCall patient-calling core, modelled in Dafny

MedCall announces patients across browser sessions: a reception desk and the
physicians' rooms make calls, and a public TV panel shows them. There is no
server. All sessions share the browser's local storage, which holds the rooms,
the users, the waiting list, the call history and the latest call. A real-time
channel carries a `new_call` message to the other open sessions.

The model covers:

- the store (`store.ts`): keyed reads with defaults, full-overwrite writes,
  `saveCall` and the real-time emitter;
- the selection and update rules of the physician screen, the TV panel and
  the reception desk;
- the mock credential check of the login form;
- the application shell's router, title rule and login/logout session.

Modules:

- `Base`: `Option` and `Result`.
- `Seqs`: `slice`, `filter`, `find` and spread-prepend as functions on
  sequences, with their laws.
- `Types`, `Constants`: the records of `types.ts` and the storage keys of
  `constants.tsx`.
- `Store`: the store as `map<Key, Stored>`, where `Stored` is a value's JSON
  text, the empty string, or text that does not parse. Its pure reads are
  functions of that map. `Storage` is the store's state. `RealTimeEmitter` is
  one session's channel object: its `(event, handler)` registrations and the
  messages it has posted. `SaveCall` changes both.
- `ClinicPage`, `TvPanelPage`, `ReceptionPage`, `LoginPage`, `AppShell`: one
  module per screen. A screen whose handlers update component state is a class
  with those fields. The pure selections are functions.

Behaviour of the code worth knowing:

- A stored text that does not parse makes `JSON.parse` throw. `getStorage` has
  no fallback for it, so every read returns a `Result`, and a handler that hits
  a fault stops where the exception would be raised. Updates made before that
  point stay.
- A `BroadcastChannel` does not deliver to the object that posted. So
  `SaveCall` only appends to the poster's `posted` log. Delivery to another
  session is `Dispatch` over that session's registrations (`Receive`).
- The physician screen's "call next" does not refresh its own queue. The
  store's `storage` event does not fire in the writing tab, and the channel
  does not echo. Two clicks without a reload therefore announce the same
  patient twice (`ClinicPage.CallNextTwice`).
- When a physician account's room is missing, the screen falls back to the
  first room. Calls then go to that room, but the screen still filters its
  queue and history by the account's room id
  (`ClinicPage.FallbackRoomCallsElsewhere`).
- `admin`/`admin` is accepted even without a user named `admin`. In that case
  `onLogin` receives `undefined`. `handleLogin` then keeps it as the user,
  stores the text `undefined` under AUTH and throws reading `.role`. The stored
  text cannot be parsed on the next start (`AppShell.App.HandleLogin`,
  `AppShell.App.Mount`).

## Model

| member | source | states |
|---|---|---|
| `Store.GetStorage` | store.ts:37-40 | A missing key or empty text gives the caller's default. Other text gives the stored value. Text that does not parse is a fault, and this is the only failure. |
| `Store.GetRooms` | store.ts:47 | Without a stored room list or with the empty string, the two seed rooms; otherwise the stored list. A fault when the text is unreadable or not a room list. |
| `Store.GetUsers` | store.ts:48 | Without a stored user list or with the empty string, the three seed accounts; otherwise the stored list. A fault when the text is unreadable or not a user list. |
| `Store.GetHistory` | store.ts:50 | Without a stored history or with the empty string, the empty history; otherwise the stored calls. A fault when the text is unreadable or not a call list. |
| `Store.GetLatestCall` | store.ts:51 | Without a stored latest call, with the empty string or with a stored `null`, `null`. A call exactly when a call record is stored. A fault exactly when the text is unreadable or neither `null` nor a call. |
| `Store.GetWaitingList` | pages/ClinicDashboard.tsx:22 | Assumed reader of the WAITING_LIST key: empty when absent or the empty string, otherwise the stored patients, a fault when unreadable or not a patient list. |
| `Store.Put` | store.ts:42-44 | A write is a full overwrite. Reading the key back gives the value whatever the default, and no other key changes. |
| `Store.RecordCall` | store.ts:55 | The new history starts with the call and has length min(old+1, 100). The rest is the first min(old, 99) old entries, in order. |
| `Store.SaveCallEntries` | store.ts:53-57 | After a save, the history is `RecordCall(call, old)` and the latest call is `call`. Only HISTORY and LATEST_CALL differ. An unreadable history is the fault. |
| `Store.ReplayNewestFirst` | store.ts:55 | Saving calls one after another leaves them newest first in front of the old history, cut to 100. |
| `Store.SaveEvictsOldest` | store.ts:55-57 | Saving into a full history drops exactly the oldest call. The other 99 keep their order, and the latest call reads back as the new call. |
| `Store.SaveCall` | store.ts:53-59 | Writes HISTORY then LATEST_CALL as `SaveCallEntries` says and posts exactly one `new_call` message carrying the call. On a fault, nothing is written or posted. |
| `Store.Storage.SetItem` | App.tsx:32 | The key's text becomes the given text, nothing else changes, and the write is logged. |
| `Store.Storage.RemoveItem` | App.tsx:41 | The key is gone, nothing else changes, and the removal is logged. |
| `Store.Storage.SetStorage` | store.ts:42-44 | The store becomes `Put(old, key, data)`, and the write is logged. |
| `Store.Storage.SetUsers` | store.ts:49 | Afterwards the user list reads back as the list written. |
| `Store.RealTimeEmitter.Receive` | store.ts:13-18 | A message from another session runs every registration here for its event, and nothing when there is none. |
| `Store.RealTimeEmitter.Emit` | store.ts:9-11 | Appends one message with the event and payload. Registrations are unchanged. |
| `Store.RealTimeEmitter.On` | store.ts:13-19 | Appends one `(event, handler)` registration. Nothing is delivered. |
| `Store.Dispatch` | store.ts:13-18 | A message runs exactly the handlers registered for its event name, each with the payload unchanged. |
| `Store.DispatchInOrder` | store.ts:13-18 | Handlers run in registration order: dispatch distributes over added registrations. |
| `Store.WithoutPatient` | pages/ClinicDashboard.tsx:61 | The assumed remove-by-id keeps exactly the entries with another id. |
| `Store.WithoutPatientKeepsOrder` | pages/ClinicDashboard.tsx:61 | The assumed removal keeps the queue's order: it works part by part over a split queue. |
| `Store.RemoveHead` | pages/ClinicDashboard.tsx:47-61 | Removing the called head patient, whose id nobody else shares, leaves exactly the rest of the queue. |
| `Store.RemoveFromQueue` | pages/ClinicDashboard.tsx:61 | The assumed `removeFromQueue` rewrites WAITING_LIST as `WithoutPatient(old, id)`, or faults without writing. |
| `Constants.KeyName` | constants.tsx:6-13 | Every storage key carries the `medcall_` prefix. |
| `Constants.KeyNamesDistinct` | constants.tsx:6-13 | The six storage keys are six different strings. |
| `Types.RoomWithId` | pages/ClinicDashboard.tsx:19 | The lookup finds a room exactly when one has the id, and it is the first: no room before it has that id. |
| `ClinicPage.RoomIdOf` | pages/ClinicDashboard.tsx:18 | The account's room id, or `'r1'` when it is absent or empty. |
| `ClinicPage.ResolveRoom` | pages/ClinicDashboard.tsx:19 | The first room with the id. Otherwise the first room. Otherwise none, exactly when there are no rooms. |
| `ClinicPage.QueueFor` | pages/ClinicDashboard.tsx:22-24 | Exactly the waiting entries that target the room. |
| `ClinicPage.CallsFor` | pages/ClinicDashboard.tsx:27 | Exactly the calls made to the room. |
| `ClinicPage.CallsKeepNewestFirst` | pages/ClinicDashboard.tsx:27 | The room's calls keep the history's newest-first order: a call to the room sits between the room's newer and older calls. |
| `ClinicPage.HistoryFor` | pages/ClinicDashboard.tsx:26-28 | The first min(10, n) of the room's n calls, newest first, entry by entry. |
| `ClinicPage.NewCallHeadsRoomHistory` | pages/ClinicDashboard.tsx:26-28 | A call just saved heads its room's list on the physician's screen, followed by the room's earlier calls. |
| `ClinicPage.LastCallFor` | pages/ClinicDashboard.tsx:30 | None exactly when the room was never called; otherwise a call to the room. |
| `ClinicPage.LastCallIsNewest` | pages/ClinicDashboard.tsx:26-30 | The last call is the first call to the room in the history, and it heads `myHistory`. |
| `ClinicPage.QueueKeepsArrivalOrder` | pages/ClinicDashboard.tsx:23 | The room's queue keeps arrival order; priority plays no part. |
| `ClinicPage.NextIsEarliestArrival` | pages/ClinicDashboard.tsx:47-49 | The patient called next is the room's earliest arrival. |
| `ClinicPage.CallFromQueue` | pages/ClinicDashboard.tsx:50-58 | Name and ticket come from the patient. Room id, number and physician come from the shown room. |
| `ClinicPage.Recall` | pages/ClinicDashboard.tsx:64-69 | A recall equals the call except for id and timestamp. It is the same record only if both are unchanged. |
| `ClinicPage.FallbackRoomCallsElsewhere` | pages/ClinicDashboard.tsx:18-19 | With a fallback room, the call goes to another room id and never appears in the physician's own list. |
| `ClinicPage.ClinicDashboard.LoadData` | pages/ClinicDashboard.tsx:16-31 | Sets room, queue, history and last call from the store's reads. A faulting read stops it there. |
| `ClinicPage.ClinicDashboard.HandleCallNext` | pages/ClinicDashboard.tsx:46-62 | With no queue or no room, nothing happens. Otherwise it saves the head patient's call, then removes the same patient, in that order. The screen itself is unchanged. |
| `ClinicPage.ClinicDashboard.HandleRecall` | pages/ClinicDashboard.tsx:64-71 | Saves the recall. The waiting list and every key other than the two call keys are untouched. |
| `ClinicPage.CallNextTwice` | pages/ClinicDashboard.tsx:46-62 | Two clicks with no reload announce the same patient twice. |
| `TvPanelPage.Trailing` | pages/TvPanel.tsx:20 | At most 5 calls, entry i being history[i+1]; the head is never shown. |
| `TvPanelPage.TrailingAfterSave` | pages/TvPanel.tsx:29-30 | After a save, the trailing list is the 5 calls that were newest before it. |
| `TvPanelPage.TvPanel.Mount` | pages/TvPanel.tsx:16-34 | Shows the stored latest call and the trailing list, then registers for `new_call`. A faulting read stops it there. |
| `TvPanelPage.TvPanel.HandleNewCall` | pages/TvPanel.tsx:26-32 | The current call becomes the payload as it came. The trailing list is re-read from the store. The highlight is on. |
| `TvPanelPage.TvPanel.EndHighlight` | pages/TvPanel.tsx:46 | The highlight goes off and nothing else changes. |
| `TvPanelPage.SaveThenDisplay` | pages/TvPanel.tsx:26-31 | A save in one session reaches a registered panel in another. The panel then shows the call followed by the 5 calls newest before it. |
| `ReceptionPage.SelectableRooms` | pages/ReceptionDashboard.tsx:15 | Exactly the active rooms. |
| `ReceptionPage.BuildCall` | pages/ReceptionDashboard.tsx:24-34 | An empty ticket becomes no ticket. A missing room, or an empty number or name, shows `'?'` / `'Desconhecido'`. The call still goes to the chosen id. |
| `ReceptionPage.RecentAfter` | pages/ReceptionDashboard.tsx:38 | The new call in front, at most 5 kept, the rest in order. |
| `ReceptionPage.RecentMirrorsHistory` | pages/ReceptionDashboard.tsx:38 | While this desk is the only one calling, its recent list stays the first 5 stored calls. |
| `ReceptionPage.ReceptionDashboard.SubmitDisabled` | pages/ReceptionDashboard.tsx:112 | The button is enabled only when no call is pending and both the name and the room are filled. |
| `ReceptionPage.ReceptionDashboard.Mount` | pages/ReceptionDashboard.tsx:14-17 | Offers the active rooms and shows the first 5 stored calls. |
| `ReceptionPage.ReceptionDashboard.HandleCall` | pages/ReceptionDashboard.tsx:19-35 | With a blank name or room, nothing happens. Otherwise `loading` turns on, submit is disabled, and the built call waits for its timer. |
| `ReceptionPage.ReceptionDashboard.FinishCall` | pages/ReceptionDashboard.tsx:36-42 | Saves the call and puts it in front of the recent list. Name and ticket are cleared, the room is kept and `loading` turns off. A failed save stops it before that. |
| `LoginPage.CheckCredentials` | pages/Login.tsx:17-25 | Accepted exactly for `admin`/`admin`, or for `123456` with an active account of that name. The record is the first such account, else the first user named `admin`. |
| `LoginPage.AdminAlwaysAccepted` | pages/Login.tsx:21 | `admin`/`admin` is accepted whatever the stored users are. |
| `LoginPage.InactiveNeverLogsIn` | pages/Login.tsx:18-22 | An account with no active record is rejected, except for `admin`/`admin`. |
| `LoginPage.AcceptedRecordIsFirstActive` | pages/Login.tsx:18-25 | The record handed over is the first active account with the name. |
| `LoginPage.SeedAccounts` | pages/Login.tsx:17-25 | With the seed accounts, `recepcao` logs in with `123456` but not with `admin`. `admin`/`admin` hands over the seed administrator. |
| `LoginPage.AdminWithoutRecord` | pages/Login.tsx:25 | With no user named `admin`, `admin`/`admin` hands over no record. |
| `LoginPage.LoginForm.HandleLogin` | pages/Login.tsx:15-29 | Returns the decision on the stored users and shows the error exactly on rejection. |
| `AppShell.ContainsIffOccurs` | App.tsx:80-82 | `includes` holds exactly when the text occurs at some position. |
| `AppShell.Title` | App.tsx:79-84 | The title is picked by the first of `admin`, `reception`, `clinic` that the hash contains, else `'Dashboard'`. |
| `AppShell.Home` | App.tsx:70-75 | Each role's default page is a dashboard, never a denial. |
| `AppShell.RenderContent` | App.tsx:58-77 | Admin routes are for ADMIN only, reception routes for RECEPTION only, and `#/clinic` is open to all. Any other hash gives the role's default. It is denied exactly on another role's routes. |
| `AppShell.Render` | App.tsx:45-55 | Blank while loading. The panel for `#/panel` whoever is logged in. The login page without a user. Otherwise the titled layout with the routed content. |
| `AppShell.LandingHash` | App.tsx:33-36 | The landing hash is an admin route for ADMIN, a reception route for RECEPTION, and `#/clinic` for CLINIC. |
| `AppShell.LandingTitle` | App.tsx:79-84 | Each role's landing hash has that role's title. |
| `AppShell.LandingIsHome` | App.tsx:30-37 | After login, every role sees its own dashboard under its own title. |
| `AppShell.NeverNotFound` | App.tsx:70-75 | With three roles, "Página não encontrada" is never rendered. |
| `AppShell.App.View` | App.tsx:45-90 | The current page: blank exactly while loading, and the titled layout, titled by the current hash, exactly for a logged-in user away from the panel. |
| `AppShell.App.Settled` | App.tsx:25-26 | The page once the pending `hashchange` has copied the browser's location: a titled layout is titled by that location. |
| `AppShell.App.Mount` | App.tsx:17-28 | Restores a saved user and stops loading. Unparseable saved text stops it with the page left blank. |
| `AppShell.App.HashChanged` | App.tsx:25-26 | The browser's location and the component's hash both become the new hash. Delivering the pending event shows the page `Settled` promised. |
| `AppShell.App.HandleLogin` | App.tsx:30-37 | Keeps the user, saves it under AUTH and sets the browser's location to the role's landing hash, whose page is the role's dashboard. The rendered hash stays as it was. With no record, it saves unparseable text and fails. |
| `AppShell.App.HandleLogout` | App.tsx:39-43 | Forgets the user, removes AUTH and sets the location to `#/`. The login page shows at once on any hash but the panel's, and after the `hashchange` in any case. |
| `AppShell.SubmitLogin` | App.tsx:54 | A rejected login changes no session state. An accepted one lands on the role's dashboard once the `hashchange` arrives. |

## Left out

- JSON encoding and `localStorage` itself are abstracted: `Stored` is a value's text, the empty string or unparseable text.
- Text that parses but is the wrong kind of value for its key is modelled as a fault. In the browser it would flow on as a mistyped object.
- Cross-tab transport is out of scope: the `BroadcastChannel` object, the `window` `storage` listeners, and handler accumulation when effects re-run. Only the event-name filter and the posted log are modelled.
- Registration clean-up on unmount is not modelled.
- Queue issuance, ticket numbering and enqueue are not defined in `store.ts` or any other file modelled here: no ticket format is assumed.
- `getWaitingList` and `removeFromQueue` are imported but not defined in `store.ts`. They are modelled as the assumed WAITING_LIST reader and remove-by-id. Whether they post `queue_updated` is unknown, so that message is not modelled.
- Ids from `Date.now()` and timestamps from `new Date()` are parameters. Nothing makes them unique.
- The clock, audio playback, fullscreen and the 8-second highlight timer's timing are timers and devices. The timer's firing is `EndHighlight`, with no ordering against later calls.
- The reception desk's 500 ms delay is modelled as a queue of pending submissions, and the timer body `FinishCall` is one atomic step.
- `pages/AdminDashboard.tsx` and `components/Layout.tsx` are display-only and not part of this model. The layout shows only as the title it is given.
- `AuthState` and the enum string values (`'ADMIN'`, `'PREFERENCIAL'`) carry no behaviour here.
- Each `hashchange` event is one `HashChanged` step. When it arrives relative to other handlers is left to the caller.
- React's batching of state updates is not modelled. A handler's updates take effect in program order, up to the point where it faults.
- The credential check is mock authentication. It is modelled as written, with no security claim.
- A fail-open store read and delivery to the posting session are not what the code does, so neither is modelled.
