# FirebaseDeviceStore in Dafny

A model of the iOS `FirebaseDeviceStore`: the object that keeps a signed-in user's
record of "this device and its push token" in the `user-devices` Firestore
collection, so that a backend can push to every device the user is signed in on.

The model has two parts.

- **The device document** (`DeviceDocument.dfy`). A user's document holds
  `userId` and a `devices` map keyed by device id. `updateDevice` is a merging
  `setData` that sets `userId` and the single entry `devices.<deviceId>` (built by
  `createDevice`: device id, token, name, OS string, type `"iOS"`), creating the
  document when it is missing. `deleteDevice` removes the field
  `devices.<deviceId>` and leaves the document. The collection is a
  `map<string, UserDevices>`; both writes are pure functions on it. Because the
  map is keyed by device id, a document holds at most one record per device, and
  this is proved to survive any sequence of writes.
- **The subscription controller** (`Subscription.dfy`, `DeviceStore.dfy`). The class
  `FirebaseDeviceStore` has the source's four fields (`authSubscription`,
  `currentToken`, `currentUser` reduced to its uid, `subscribed`) and one method per
  entry point: the messaging delegate's token callback, `signOut`, `subscribe`,
  the permission callback with `doSubscribe`, the instance-id fetch callback, the
  auth state listener and `unsubscribe`. Each method returns the write it asks for
  (`Upsert(uid, token)` for `updateDevice`, `Delete(uid)` for `deleteDevice`) and
  its postconditions state the source's guards. Each is also tied to a pure
  transition function `Subscription.Step`, and the lemmas about runs of events are
  proved on that function.

The main run-level result is `Subscription.RunPreservesSynced`. Whenever a user
and a token are both cached, the collection holds this device's record under
that user with that token. This holds along any run of events, with one
exception: a permission grant that installs a different user while a token is
already cached. `doSubscribe` writes nothing itself. It relies on the token fetch
it starts, and if that fetch fails the pair stays unregistered.
`Subscription.StaleGrantCanUnsync` shows that such a grant can break the result.
`Subscription.SignalsKeepSynced` applies the result to any interleaving of auth
changes, token deliveries and token fetches, since these never contain such a grant.
`Scenarios.LateFetchAfterUnsubscribe` shows one way to reach it: a fetch that
completes after `unsubscribe`. `Scenarios.OverlappingSubscribes` shows that two
`subscribe` calls made before the first permission answer register two auth
listeners. `unsubscribe` then removes only one of them.

Three behaviours of the code shape the model:
- `devices` is a map keyed by device id, written with merging sets and field
  deletes. It is not an array rewritten inside a transaction.
- When permission is refused, `subscribe`'s completion receives whatever error the
  platform reported, possibly none. It does not receive a dedicated
  "permission denied" error.
- The auth listener caches a user who appears even when no token is cached. It
  then simply requests no write.

External services are parameters. The event methods take the auth service's
current user and listener handle, the permission answer and its error, and the
fetched token (or `None` for a failed fetch). The device descriptor (id, name,
OS string) is a parameter of `UpdateDevice`, `ApplyWrite` and the scenarios;
`DeleteDevice` takes its device id. Ghost bookkeeping in the class counts the permission requests
and token fetches still unanswered, and the auth listeners still registered. As a
result, each callback method can only be called when the platform could call it.

## Model

| member | source | states |
|---|---|---|
| `DeviceDocument.CreateDevice` | FirebaseDeviceStore/FirebaseDeviceStore.swift:148-157 | the record holds the device id, the token, the name, the OS string and type `"iOS"` |
| `DeviceDocument.CreateUserDevices` | FirebaseDeviceStore/FirebaseDeviceStore.swift:159-168 | the document holds the owner's id and exactly this one device under its own id |
| `DeviceDocument.UpdateDevice` | FirebaseDeviceStore/FirebaseDeviceStore.swift:142-146 | the merging set adds the user's document if missing, sets `userId` to the uid, sets `devices[deviceId]` to the record for the token, keeps every other device record and every other user's document |
| `DeviceDocument.DeleteDevice` | FirebaseDeviceStore/FirebaseDeviceStore.swift:137-140 | removing `devices.<deviceId>` removes exactly that key; `userId`, other devices and other documents are unchanged; no document is created or removed |
| `DeviceDocument.UpdateDeviceRegisters` | FirebaseDeviceStore/FirebaseDeviceStore.swift:142-157 | after an upsert the device's record is the one `createDevice` builds: key equals its `deviceId`, token is the given one, type `"iOS"` |
| `DeviceDocument.FirstUpdateCreatesUserDevices` | FirebaseDeviceStore/FirebaseDeviceStore.swift:159-168 | the first upsert for a user writes exactly the document `createUserDevices` builds |
| `DeviceDocument.UpdateDeviceIdempotent` | FirebaseDeviceStore/FirebaseDeviceStore.swift:142-146 | applying the same upsert twice gives the same collection as applying it once |
| `DeviceDocument.UpdateDeviceLastWins` | FirebaseDeviceStore/FirebaseDeviceStore.swift:142-146 | a second upsert of the same device replaces the first: only the last token is kept, never a second record |
| `DeviceDocument.DeleteDeviceIdempotent` | FirebaseDeviceStore/FirebaseDeviceStore.swift:137-140 | deleting twice gives the same collection as deleting once |
| `DeviceDocument.DeleteAbsentIsNoOp` | FirebaseDeviceStore/FirebaseDeviceStore.swift:137-140 | deleting a device that is absent, or from a missing document, changes nothing |
| `DeviceDocument.UpdatesOfDistinctDevicesCommute` | FirebaseDeviceStore/FirebaseDeviceStore.swift:142-146 | upserts of two different devices of one user commute and both records survive |
| `DeviceDocument.DeleteUndoesFirstUpdate` | FirebaseDeviceStore/FirebaseDeviceStore.swift:137-146 | deleting after a device's first upsert leaves the other devices as before and the document in place with its owner; when the document already existed with its owner's id, the collection is exactly as before the upsert |
| `DeviceDocument.ApplyWritePreservesWellFormed` | FirebaseDeviceStore/FirebaseDeviceStore.swift:137-146 | each write keeps every document carrying its own user id and every record under its own device id |
| `DeviceDocument.ApplyWritesPreservesWellFormed` | FirebaseDeviceStore/FirebaseDeviceStore.swift:137-146 | any sequence of writes keeps at most one record per device in each document and the owner's id in it |
| `Subscription.DeliveryIgnoredWhenUnsubscribed` | FirebaseDeviceStore/FirebaseDeviceStore.swift:45-49 | a token delivered while not subscribed changes no field and requests no write |
| `Subscription.DeliveryWritesChangedToken` | FirebaseDeviceStore/FirebaseDeviceStore.swift:51-56 | while subscribed, a delivery requests `Upsert(user, token)` exactly when the token differs from the cached one and a user is cached, and always caches the token |
| `Subscription.RepeatedDeliveryIsQuiet` | FirebaseDeviceStore/FirebaseDeviceStore.swift:45-57 | delivering the same token a second time changes nothing and requests no write |
| `Subscription.SubscribeChangesNoState` | FirebaseDeviceStore/FirebaseDeviceStore.swift:72-89 | `subscribe` changes no field and requests no write in any state (the permission request is stated by `FirebaseDeviceStore.Subscribe`) |
| `Subscription.UnsubscribeIdempotent` | FirebaseDeviceStore/FirebaseDeviceStore.swift:91-101 | `unsubscribe` leaves everything cleared and unsubscribed; calling it twice equals calling it once |
| `Subscription.LosingUserNeverDeletes` | FirebaseDeviceStore/FirebaseDeviceStore.swift:127-133 | the user disappearing clears the cached user and never requests a delete |
| `Subscription.SwitchingUserIgnored` | FirebaseDeviceStore/FirebaseDeviceStore.swift:120-134 | any non-nil user arriving while one is cached, the same one or a different one, changes nothing and requests no write |
| `Subscription.StepKeepsConsistent` | FirebaseDeviceStore/FirebaseDeviceStore.swift:91-120 | every event keeps `subscribed` true exactly when a listener handle is held |
| `Subscription.RunKeepsConsistent` | FirebaseDeviceStore/FirebaseDeviceStore.swift:91-120 | along any run of events, `subscribed` is true exactly when a listener handle is held |
| `Subscription.StepPreservesSynced` | FirebaseDeviceStore/FirebaseDeviceStore.swift:45-134 | every event except a stale grant keeps the cached user/token pair registered in the collection |
| `Subscription.RunPreservesSynced` | FirebaseDeviceStore/FirebaseDeviceStore.swift:45-134 | along any run without a stale grant, whenever user and token are cached, the device's record under that user carries that token |
| `Subscription.SignalsHaveNoStaleGrant` | FirebaseDeviceStore/FirebaseDeviceStore.swift:45-134 | a run of token deliveries, token fetches and auth changes contains no stale grant |
| `Subscription.SignalsKeepSynced` | FirebaseDeviceStore/FirebaseDeviceStore.swift:45-134 | any interleaving of auth changes, token deliveries and fetches keeps the cached user/token pair registered and the collection well formed |
| `Subscription.DeliveredTokenIsRegistered` | FirebaseDeviceStore/FirebaseDeviceStore.swift:51-56 | while subscribed, from a synced state with a user cached, the delivered token is the one registered afterwards |
| `Subscription.OnlySignOutDeletes` | FirebaseDeviceStore/FirebaseDeviceStore.swift:59-70 | a run without `signOut` requests only upserts, never a delete |
| `Subscription.UnsubscribedDeliveriesIgnored` | FirebaseDeviceStore/FirebaseDeviceStore.swift:45-49 | any run of token deliveries while unsubscribed changes nothing and writes nothing |
| `Subscription.StaleGrantCanUnsync` | FirebaseDeviceStore/FirebaseDeviceStore.swift:103-106 | `doSubscribe` replacing the cached user while a token is cached can leave the new pair unregistered: a concrete synced state where it does |
| `DeviceStore.FirebaseDeviceStore.constructor` | FirebaseDeviceStore/FirebaseDeviceStore.swift:25-42 | a new store is unsubscribed, holds no user, token or listener, and no callback is outstanding |
| `DeviceStore.FirebaseDeviceStore.DidReceiveRegistrationToken` | FirebaseDeviceStore/FirebaseDeviceStore.swift:45-57 | ignored unless subscribed; otherwise caches the token and requests `Upsert(user, token)` iff the token changed and a user is cached |
| `DeviceStore.FirebaseDeviceStore.SignOut` | FirebaseDeviceStore/FirebaseDeviceStore.swift:59-70 | clears the user; requests `Delete(previous uid)` with a pending completion iff user and token were cached, else completes with no error; `subscribed` and the token are unchanged |
| `DeviceStore.FirebaseDeviceStore.Subscribe` | FirebaseDeviceStore/FirebaseDeviceStore.swift:72-89 | when subscribed, completes with no error and asks for no permission; otherwise one permission request is outstanding; state unchanged |
| `DeviceStore.FirebaseDeviceStore.OnAuthorization` | FirebaseDeviceStore/FirebaseDeviceStore.swift:81-88 | a refusal passes the platform's error to the completion and changes no field; a grant subscribes and completes with no error |
| `DeviceStore.FirebaseDeviceStore.DoSubscribe` | FirebaseDeviceStore/FirebaseDeviceStore.swift:103-120 | raises `subscribed`, snapshots the auth user, keeps the token, starts one token fetch, registers and holds one listener |
| `DeviceStore.FirebaseDeviceStore.OnInstanceIdResult` | FirebaseDeviceStore/FirebaseDeviceStore.swift:108-118 | a fetched token is cached and `Upsert(user, token)` requested iff a user is cached; a failed fetch changes nothing |
| `DeviceStore.FirebaseDeviceStore.OnAuthStateChanged` | FirebaseDeviceStore/FirebaseDeviceStore.swift:120-134 | a user appearing with none cached is cached and upserted iff a token is cached; a user leaving is cleared with no write; anything else changes nothing |
| `DeviceStore.FirebaseDeviceStore.Unsubscribe` | FirebaseDeviceStore/FirebaseDeviceStore.swift:91-101 | removes the held listener and leaves no user, token or handle and `subscribed` false |
| `Scenarios.SignInRotateSignOut` | FirebaseDeviceStore/FirebaseDeviceStore.swift:45-146 | sign-in, token, rotation and sign-out give one record following the token, then an empty `devices` map in a document still owned by the user |
| `Scenarios.PermissionRefused` | FirebaseDeviceStore/FirebaseDeviceStore.swift:72-88 | a refused permission reports the platform's error, leaves the store unsubscribed, and later tokens request no write |
| `Scenarios.LateFetchAfterUnsubscribe` | FirebaseDeviceStore/FirebaseDeviceStore.swift:91-118 | a fetch finishing after `unsubscribe` can leave a cached user and token for which the store requests no write at all, so the collection built from its requests stays empty and the pair is unregistered |
| `Scenarios.OverlappingSubscribes` | FirebaseDeviceStore/FirebaseDeviceStore.swift:72-134 | two overlapping `subscribe` calls leave one listener registered after `unsubscribe`, and that listener can still request an upsert |

## Left out

- Firebase and Apple services (`Auth`, `Firestore`, `InstanceID`, `Messaging`, `UNUserNotificationCenter`, `UIDevice`). Their results are parameters of the event methods: the auth user, listener handles, permission answers and fetched tokens.
- The device descriptor's values (`getDeviceId`, `getDeviceName`, `getOS`). They are one uninterpreted `Descriptor`, and the force-unwrap of the vendor identifier is not modelled.
- Firestore's own semantics beyond the map update and removal. Not modelled: `updateData` failing on a missing document, which the model treats as a no-op; write errors reaching the completions; retries; network failures. A delete's completion is therefore left `Pending` rather than given an outcome.
- Asynchronous scheduling and other devices writing concurrently. Every event is one atomic method call, processed in arrival order.
- The collection path, the `userRef` addressing and the field-name constants. The logging TODOs have no behaviour.
