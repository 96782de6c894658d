# Instruments page: realtime cache reducer

A Dafny model of the client-side synchronisation logic of the instruments page
(`app/instruments/page.tsx`). The page keeps four pieces of state: the list of
`Instrument` rows, a `loading` flag, the online-user count and a last-activity
banner. It changes them in four ways, and the model covers three of them:

- the initial snapshot fetch (`fetchInstruments`) seeds the list;
- the row-level change feed (`handleDatabaseChange`) prepends inserts, replaces
  updated rows by identity and filters out deleted identities, writing a banner
  each time;
- the presence sync sets the online count to the number of presence keys.

The fourth writer is the `user-activity` broadcast handler, which copies a
delivered message into the banner; see "## Left out".

The model states each of these as a pure function over an immutable `View`
value. Modules:

- `Wrappers` holds `Option`, used for the nullable `data` and `error` of a fetch.
- `Instruments` holds the `Instrument` record. It also defines the predicates the
  properties are stated in: `HasId`, `CountId`, `DistinctIds` and
  `IsSubsequence`.
- `ListOps` holds the three list transitions: `Prepend` for INSERT,
  `ReplaceById` for UPDATE and `RemoveById` for DELETE. Their lemmas cover
  length, order, idempotence, absent identities and distinctness.
- `Activity` holds the banner texts. `Parse` reads a banner back into the notice
  it announces. It is a reference definition used in contracts and proofs: it shows
  that a banner names its event kind and the exact record name.
- `View` holds the page state, the change notification and its classification,
  `Apply`, the fetch outcome and the presence sync.
- `Delivery` holds the replay of a change stream in arrival order, and how a
  stream interacts with a snapshot that settles after it.
- `Scenarios` holds three worked examples.

Behaviours of the code worth knowing:

- A failed snapshot fetch does not empty the list: the `catch` at
  `app/instruments/page.tsx:87-88` has no `setInstruments`, so the list stays as
  it was. When the fetch fails before any change has arrived, the list is still
  the empty initial list; changes delivered earlier stay visible.
- An UPDATE replaces every row with the matching identity, not just one. A DELETE
  drops every such row. This matters only when identities are not distinct.
- Event kinds are matched case-sensitively against `INSERT`, `UPDATE` and
  `DELETE`. Any other string changes nothing, not even the banner.

## Model

| member | source | states |
|---|---|---|
| `ListOps.Prepend` | app/instruments/page.tsx:97 | an insert puts the record in front of the unchanged old list: length grows by one and the record's identity count grows by one; the result has distinct identities exactly when the old list did and the identity was fresh |
| `ListOps.ReplaceById` | app/instruments/page.tsx:101-105 | an update keeps the length, and at each position holds the new record if the old one had its identity and the old record otherwise |
| `ListOps.RemoveById` | app/instruments/page.tsx:109-111 | a delete leaves no record with the identity; every survivor came from the old list; the length drops by the number of matching records |
| `ListOps.ReplaceKeepsIds` | app/instruments/page.tsx:102-104 | an update keeps the identity at every position, so the identity is held afterwards exactly when it was before |
| `ListOps.ReplaceInstalls` | app/instruments/page.tsx:102-104 | an update of a held identity puts the new record in the list |
| `ListOps.ReplaceAbsent` | app/instruments/page.tsx:101-105 | an update for an identity not held leaves the list unchanged |
| `ListOps.ReplaceIdempotent` | app/instruments/page.tsx:101-105 | applying the same update twice gives the same list as once |
| `ListOps.ReplacePreservesDistinct` | app/instruments/page.tsx:101-105 | an update leaves the list with distinct identities exactly when it had them |
| `ListOps.RemoveIsSubsequence` | app/instruments/page.tsx:110 | a delete keeps the surviving records in their original relative order |
| `ListOps.RemoveKeepsOthers` | app/instruments/page.tsx:110 | a delete keeps every record of another identity as often as it occurred and drops every record of the deleted identity |
| `ListOps.RemoveAbsent` | app/instruments/page.tsx:110 | a delete for an identity not held leaves the list unchanged |
| `ListOps.RemoveIdempotent` | app/instruments/page.tsx:110 | applying the same delete twice gives the same list as once |
| `ListOps.RemoveHeldShrinksByOne` | app/instruments/page.tsx:110 | with distinct identities, deleting a held identity removes exactly one record |
| `ListOps.RemovePreservesDistinct` | app/instruments/page.tsx:110 | a delete from a list with distinct identities leaves distinct identities |
| `Instruments.DistinctCountAtMostOne` | app/instruments/page.tsx:100-111 | in a list with distinct identities an identity occurs at most once, and exactly once when held |
| `Activity.Render` | app/instruments/page.tsx:98-112 | the insert and update banners mention the record's name; the delete banner is the fixed text "An instrument was deleted!" |
| `Activity.ParseRender` | app/instruments/page.tsx:98-112 | every banner reads back as the notice it was written for: event kind and exact name |
| `Activity.RenderInjective` | app/instruments/page.tsx:98-112 | two different notices never produce the same banner |
| `View.Mount` | app/instruments/page.tsx:20-23 | the page starts with an empty list, loading, zero users and an empty banner, which announces nothing |
| `View.Classify` | app/instruments/page.tsx:95-114 | `INSERT`, `UPDATE` and `DELETE` (exact, case-sensitive) give an insert, an update and a delete respectively, and every other kind is unrecognised; inserts and updates carry the new row, deletes the old row's identity |
| `View.Apply` | app/instruments/page.tsx:94-115 | a change never touches loading or the online count; an unrecognised change changes nothing; a recognised one leaves a banner that reads back as its notice; an insert grows the list by one with the record in front; an update keeps the length; a delete leaves the identity absent |
| `View.HandleDatabaseChange` | app/instruments/page.tsx:94-115 | the handler never touches loading or the online count; it prepends on INSERT, replaces by identity on UPDATE and filters by the old identity on DELETE, writing the added banner with the new row's name, the updated banner with it, or the fixed delete banner; any other kind leaves the state unchanged |
| `View.ApplyIdempotentIff` | app/instruments/page.tsx:94-115 | applying a change twice equals applying it once exactly when it is not an insert |
| `View.InsertTwiceDuplicates` | app/instruments/page.tsx:97 | delivering the same insert twice shows the record twice in front and breaks distinct identities |
| `View.ApplyPreservesDistinct` | app/instruments/page.tsx:95-114 | from distinct identities, a change keeps them distinct exactly when it is not an insert of an identity already held |
| `View.ApplyHeldIdentity` | app/instruments/page.tsx:100-111 | with distinct identities, deleting a held identity shrinks the list by exactly one, and updating one leaves exactly one record with that identity, the new one |
| `View.ApplyAbsentIdentity` | app/instruments/page.tsx:100-111 | an update or delete for an identity not held leaves the list unchanged |
| `Delivery.ReplayAppend` | app/instruments/page.tsx:42-45 | delivering one stream of changes and then another gives the same state as delivering the two joined |
| `Delivery.Replay` | app/instruments/page.tsx:42-45 | applying a delivered stream of changes in arrival order never touches loading or the online count |
| `Delivery.ReplayGrowth` | app/instruments/page.tsx:42-45 | a stream of changes grows the list by at most its number of inserts |
| `Delivery.ReplayWithoutInsertsDistinct` | app/instruments/page.tsx:94-115 | any stream of updates and deletes, in any order and with repeats, keeps identities distinct |
| `View.FetchInstruments` | app/instruments/page.tsx:85-91 | on success the list becomes the fetched rows, or empty for a null body; on error it is unchanged; loading is false afterwards either way; nothing else changes |
| `Delivery.SnapshotOverridesEarlierChanges` | app/instruments/page.tsx:85-86 | a successful snapshot that settles after some changes replaces the list wholesale |
| `Delivery.FailedFetchKeepsEarlierChanges` | app/instruments/page.tsx:85-91 | a failed snapshot that settles after some changes keeps the list those changes produced, and ends loading |
| `View.PresenceSync` | app/instruments/page.tsx:55-58 | the online count is the number of keys in the presence state; nothing else changes |
| `View.PresenceTrack` | app/instruments/page.tsx:55-58 | a new presence key raises the count by one, a re-tracked key leaves it, a removed key lowers it by one |
| `Scenarios.SnapshotThenInsert` | app/instruments/page.tsx:85-98 | a Piano snapshot then a Drums insert gives `[Drums, Piano]`, with a banner naming Drums |
| `Scenarios.UpdateThenDelete` | app/instruments/page.tsx:100-112 | renaming Violin to Viola keeps its position; deleting id 5 then removes exactly that row and shows the fixed banner |
| `Scenarios.FailedSnapshotAndUnknownKind` | app/instruments/page.tsx:85-96 | a failed snapshot on mount leaves an empty list and ends loading; a lower-case kind name changes nothing |

## Left out

- Supabase client creation, the snapshot query, the sample insert and channel subscribe/unsubscribe are library and network I/O. The model takes what they deliver as parameters: a `FetchResponse`, a `ChangePayload` and a presence map.
- `addSampleInstrument` is left out. It only issues a network insert and a broadcast, and its row comes back through the change feed.
- The random presence key and the random sample pick use `Math.random`, which is nondeterministic.
- The delayed self-broadcast (`setTimeout`) is a timer and transport. The `user-activity` broadcast handler only copies a delivered string into the banner.
- React's `useState`/`useEffect` scheduling is not modelled. Each functional state update is applied in delivery order, one after the other.
- JSX rendering, `Date.toLocaleString` and console logging are left out.
- Identities are Dafny integers. JavaScript `number` identities that are fractional or `NaN` are not modelled.
- Payloads are typed. The handler reads an untyped `any`, so a payload missing `new` or `old` would fault; such payloads are not modelled.
