# OpenIoTRSP: a verified model

OpenIoTRSP is an eIM: it queues signed eUICC packages for IoT devices, hands them out when a
device polls over ESipa, verifies and correlates the results devices send back, and keeps
what it knows about each eUICC. The repository also holds an emulated device. This project
models the parts where that is hard to get right and proves what they keep.

**The exchange as a two-party protocol.** `StoreState`, `Queue` and `Store` model the
in-memory store: its contents as a value, the queue of each device, and the class whose
methods change the maps in place. `Effects` and `Apply` do the same for the effects of a
result on the eIM's records, `Outcome`, `Notifications`, `Handler` and `Endpoint` for the
handling of an upload, and `Device` and `Runner` for the emulated device. `Signing` runs
Sign and the queue together, `Exchange` is one exchange, `Waiting` follows an operation that
waits for its result, and `Runs` and `InventoryRuns` are whole runs, in which anything else
may happen between a poll and the delivery of its result. The main results:

- `Runs.RunsKeepAgreement`: in every run the association token the eIM holds for each eIM
  ID is the device's own, and every notification the device issued is pending or held by the
  eIM as it was issued, unless somebody else stored one under its number;
  `Answers.SignedIsVerified` and `Runs.EveryDeliveryIsAcknowledged`: so the octets the device
  signs are the octets the eIM verifies, and every upload is accepted, however many
  operations the device has. `Runs.RetiredAreStored`: a notification is retired only when the
  eIM holds that very notification. `Agreement.TokensAfter` says exactly when one operation
  keeps the tokens equal.
- `InventoryRuns.EqualFromTheListingOn`: from an empty eIM and a fresh device, after any run,
  a listing and any run of operations that name their ICCIDs, the two profile inventories are
  equal; `InventoryRuns.DeliveryKeepsInventory` is the exact condition for one exchange.
- `Refusal.RefusedStayEqual`: when an upload is refused as unknown, the exact condition under
  which the two sides stay equal although the device applies its operation.
- `Redelivery.RedeliveryIsHarmless`: handling the same signed result again leaves the whole
  store as it is, for every operation and every answer.
- `Signing.ResultsCorrelate`: a signed result belongs to at most one operation and the
  matcher finds it, pending or finished.
- `StoreState.ReachableInv`, `StoreState.NeverPendingAgain`, `Queue.FetchedLowest`: the
  numbering of every reachable store, finished operations, and what a fetch returns.

**TLV codecs at two levels.** `Tlv` is a tree with a definite-length writer and a parser;
`EuiccPackage`, `PackageResult`, `ResultItems` and `IpaData` are the structures;
`SpanScanner` is the byte-level extractor, proved to name the same octets as the tree codec,
in `ScannedMessages` for every message that both accept; `RelayFraming` is the relay's own
length writer and header reader; `BitString` is the BIT STRING codec.

**The command journal** (`Journal`), **the relay's routing table under concurrent calls**
(`Relay`: `Relay.ExclusiveStays`, all routed messages of a transaction that one SM-DP+ alone
carried go to it) and **CoAP Block2 slicing** (`Block2`).

Assumptions. The bertlv library is not part of the repository; it stands here as the tree,
writer and parser of `Tlv` (asn1/doc.go promises definite-length DER). Signing, signature
verification, the journal's hash and the time format are parameters. Results about the
journal do not assume that the hash is injective, which no hash of 32 octets is: they name
the two octet strings that would have to collide. An upload reaches the eIM as the tree the
device built, and an acknowledgement list as the list the eIM built. Go strings and byte
slices are sequences of octets; nil and empty slices are told apart only where the code does.

Where the code and the expectation of it differ, the model follows the code:

- An addEim, or an updateEim that carries a token, with an empty eIM ID is stored by the eIM
  and ignored by the device (`Agreement.EmptyEimIdDisagrees`).
- Enable, disable and set-fallback with an empty ICCID create a profile on the eIM's side only
  (`Agreement.InventoryAfter`).
- The journal's digests carry no length. Two different digest lengths in one field let two
  different entries encode alike if and only if neither length is 0
  (`Journal.SeparatesIff`, `Journal.DigestLengthsCollide`). The command of an entry is not
  hashed (`Journal.CommandUnprotected`).
- The relay keeps only the last eight octets of a length, so a nine-octet length of 2^64 and
  no contents pass for an object (`RelayFraming.WrappedNotWhole`); what passes is whole if
  and only if its length is below 2^63 (`RelayFraming.AcceptedIff`).
- An answer from one SM-DP+ that names a transaction of another takes over its route
  (`Relay.RedirectedByAnswer`); `Relay.RedirectIff` is the exact condition.
- A wrapped IPA data response whose objects are all unknown and all tagged like
  notifications is read as a bare notifications list (`IpaData.WrappedIsRecognised`).
- The device takes an error answer to an upload for an empty acknowledgement and applies the
  operation all the same: a refused addEim leaves it with a token the eIM does not hold
  (`Refusal.RefusedAddEim`). The two sides stay equal if and only if the operation was idle
  on the device (`Refusal.RefusedStayEqual`). No upload is refused in the runs proved about.
- A profile seeded under a name that is not the lower-case hexadecimal form of its ICCID
  (mockipa/device_view.go:41-54) falls outside the inventories compared: the eIM files what
  the device lists under that form.

## Model

| member | source | states |
|---|---|---|
| StoreState.ReachableInv | storage/memory/store.go:87-260 | In every reachable store the operations of each tenant and EID carry the numbers 1 to next-1 exactly once, IDs are unique, and finished operations have a result of their own status. |
| StoreState.RecordInv | storage/memory/store.go:389-436 | Recording any result, by operation ID or by sequence number, keeps that invariant. |
| StoreState.EnqueueInv | storage/memory/store.go:231-260 | Enqueueing keeps the invariant: the new operation takes the next number and no other. |
| StoreState.ConcernsSlot | storage/memory/store.go:389-431 | The operations a result concerns are exactly those in its slot, whether it is addressed by ID or by number, so there is at most one. |
| StoreState.NeverPendingAgain | storage/memory/store.go:389-436 | After any further calls a finished operation is the same operation, still finished, with a stored result of its status. |
| Queue.QueueEnqueue | storage/memory/store.go:231-260 | Enqueueing appends one operation to the device's queue and leaves all other queues alone. |
| Queue.QueueRecord | storage/memory/store.go:389-436 | Recording a result changes the status of one position of one queue and nothing else. |
| Queue.FetchedLowest | storage/memory/store.go:295-325 | A fetch is strictly increasing, only holds pending operations of that tenant and device, and leaves out a pending operation only when the limit is full of lower-numbered ones. |
| Store.SortedOk | storage/memory/store.go:630-636 | Sorting operations with distinct numbers makes them strictly increasing and keeps the same members. |
| Store.Sink | storage/memory/store.go:632-634 | The inner loop inserts element i into the sorted prefix and leaves the rest of the array alone. |
| Store.SortOperations | storage/memory/store.go:630-636 | The in-place sort leaves the array equal to the sorted list of what it held. |
| Store.Store.constructor | storage/memory/store.go:73-85 | A new store is empty and satisfies the invariant. |
| Store.Store.RegisterDevice | storage/memory/store.go:88-104 | A new device starts its two counters at 1; a known one is left as it is. |
| Store.Store.NextEuiccPackageCounter | storage/memory/store.go:208-228 | Returns the next counter and moves it on by one, for this tenant and EID only. |
| Store.Store.EnqueueOperation | storage/memory/store.go:230-260 | The operation gets the next ID and the device's next number, pending; an unknown device is an error. |
| Store.Store.GetOperationBySequence | storage/memory/store.go:277-293 | Returns the operation at that position of the device's queue, whatever order the map is walked in, and an error exactly when there is none. |
| Store.Store.FetchPendingOperations | storage/memory/store.go:295-325 | Returns the pending part of the device's queue in order, up to the limit, whatever order the map is walked in. |
| Store.Store.ListOperations | storage/memory/store.go:327-357 | Returns the device's queue in order, up to the limit. |
| Store.Store.RecordEuiccPackageResult | storage/memory/store.go:387-436 | Stores the result and finishes the operation it concerns; stopping at the first match is enough. |
| Store.Store.SetProfileState | storage/memory/store.go:140-154 | Writes one profile of a known device and nothing else. |
| Store.Store.DeleteProfileState | storage/memory/store.go:156-175 | Removes one profile; an error when device or profile is unknown. |
| Store.Store.ListProfileStates | storage/memory/store.go:118-138 | Lists exactly the device's profiles, each once. |
| Store.Store.SetEuiccState | storage/memory/store.go:192-206 | Writes the eUICC record of a known device. |
| Store.Store.SetAssociatedEim | storage/memory/store.go:495-511 | Writes one associated eIM of a known device. |
| Store.Store.DeleteAssociatedEim | storage/memory/store.go:513-530 | Removes one associated eIM; an error when device or eIM is unknown. |
| Store.Store.StoreNotification | storage/memory/store.go:570-594 | Stores a notification with a positive number for a known device, replacing one with the same number. |
| Outcome.CollectViews | euiccpkg/service.go:523-537 | The profiles of a listing that have an ICCID, in order, with ICCIDs in hexadecimal. |
| Outcome.ResultByTag | euiccpkg/service.go:596-604 | The result with the operation's context tag that no other such result precedes, or none when no result has it. |
| Outcome.VerdictIsStable | euiccpkg/service.go:270-387 | Two verifications of the same result for the same request that both pass give the same outcome, whatever tokens they used. |
| Effects.OverlayAt | euiccpkg/state.go:133-153 | A reported profile gets a state that does not depend on what was stored, but for its address; every other profile shows through. |
| Effects.SyncTwice | euiccpkg/state.go:123-162 | Synchronising with the same listing twice is the same as once. |
| Effects.ConfigWireRoundTrip | euiccpkg/state.go:294-320 | A stored eIM configuration decodes to what was encoded. |
| Effects.TokenAfterPut | euiccpkg/service.go:161-181 | The token read for an eIM is the one its stored configuration carries. |
| Effects.EffectTwice | euiccpkg/state.go:30-42 | Applying the effect of any package a second time changes nothing and ends the same way. |
| Apply.SetProfileEnabled | euiccpkg/state.go:109-121 | Enables or disables one profile, creating it if needed, and keeps the rest of it. |
| Apply.SyncProfileInventory | euiccpkg/state.go:123-162 | Writing the reported profiles and dropping the others leaves exactly the reported inventory, with known addresses kept. |
| Apply.SyncResult | euiccpkg/state.go:133-160 | The two loops together equal emptying the device's inventory and writing the reported profiles. |
| Apply.SetProfileFallback | euiccpkg/state.go:164-190 | The fallback attribute moves to the named profile, which is created if it is absent. |
| Apply.ClearProfileFallback | euiccpkg/state.go:192-207 | No profile of the device keeps the fallback attribute. |
| Apply.ApplyPsmoState | euiccpkg/state.go:64-107 | The effect of each profile operation, with the errors for unknown devices. |
| Apply.AssociationToken | euiccpkg/state.go:280-302 | The stored token of an eIM, none when it is not associated, an error when its configuration does not decode. |
| Apply.ApplyEcoState | euiccpkg/state.go:232-278 | addEim stores the reported token, updateEim without a token keeps the stored one, deleteEim of an unknown eIM is no error. |
| Apply.ApplyPackageResultState | euiccpkg/state.go:30-42 | The effect of a single-operation package; other packages have none. |
| Notifications.RecordNotifications | esipa/handler.go:396-416 | Stores a list of notifications until one cannot be stored and returns their numbers. |
| Notifications.ReturnedAreStored | esipa/handler.go:404-415 | The numbers returned are those of the list; under each the store holds the last notification of the list with that number, and every other notification is as it was. |
| Notifications.StoreTwice | esipa/handler.go:396-416 | Storing the same list again changes nothing and answers the same. |
| Notifications.AppendAckSequences | esipa/handler.go:485-499 | Appends each number that is not there yet. |
| Notifications.MergedOk | esipa/handler.go:485-499 | No duplicates are added, no number is lost, none appears from nowhere, and the list so far stays a prefix. |
| Handler.CorrelateExact | esipa/handler.go:865-927 | While a device has at most 10000 operations, all from Sign, the matcher returns the one operation that correlates, pending or finished, or says that there is none. |
| Handler.CorrelateSound | esipa/handler.go:865-927 | However many operations there are, what the matcher finds is an operation of the device that correlates. |
| Handler.CorrelateFetched | esipa/handler.go:865-881 | However many operations there are, a pending one among the first 10000 pending is found. |
| Handler.FirstPackage | esipa/handler.go:929-945 | The eUICC package that no other package of the list precedes, or none when the list has none. |
| Endpoint.FirstMatchingEuiccPackage | esipa/handler.go:900-927 | The scan returns the first package that correlates; a payload that does not decode is an error. |
| Endpoint.MatchByCorrelation | esipa/handler.go:865-898 | Pending operations are searched first, then all of them. |
| Endpoint.MatchingOperations | esipa/handler.go:822-863 | Which operation a result of each kind is matched to. |
| Endpoint.SelectOperation | esipa/handler.go:947-970 | A poll gets the first pending eUICC package, else the first pending operation. |
| Endpoint.VerifiedOperationResult | esipa/handler.go:758-798 | The verdict with the token the eIM holds for the eIM of the request. |
| Endpoint.ApplyOperation | esipa/handler.go:633-646 | Only an operation that is done has an effect. |
| Endpoint.RecordEimPackageResult | esipa/handler.go:573-655 | Matching, verification, recording, effect, notifications and acknowledgement, stopping at the first error with what was written until then. |
| Redelivery.RecordTwice | storage/memory/store.go:389-436 | Recording the same result again changes nothing, by operation ID or by number. |
| Redelivery.CarriedQueue | esipa/handler.go:610-647 | An accepted upload changes the status of the matched operation and no other operation of any device. |
| Redelivery.FoundAgain | esipa/handler.go:883-897 | The second delivery is matched to the same operation, now finished, or to none; to none only when the device has more than 10000 operations. |
| Redelivery.RedeliveryIsHarmless | esipa/handler.go:592-655 | Handling the same signed result twice leaves the whole store as after the first time, whatever the operation, the answers and the number of operations, a second delivery that is refused or no longer matched included. |
| Runs.RedeliveryInRuns | esipa/handler.go:592-655 | The same in every run in which packages come from Sign. |
| Signing.QueuedIsSigned | euiccpkg/service.go:80-116 | A queued payload decodes to the request that was signed, with the counter that was taken. |
| Signing.SignedParts | euiccpkg/service.go:58-131 | A signed request carries the device's next counter, and the next one is greater. |
| Signing.WorldStepInv | euiccpkg/service.go:58-131 | Signing, queueing and everything else that happens to the store, in any order, keep every queue a queue of signed packages with distinct counters. |
| Signing.ResultsCorrelate | esipa/handler.go:835-927 | In every such run a signed result matches at most one operation of its device and the matcher finds it. |
| Device.UnacknowledgedIs | mockipa/runner.go:316-331 | The filter keeps exactly the notifications that are not acknowledged. |
| Device.UnacknowledgedNumbered | mockipa/runner.go:324-330 | The kept notifications stay in strictly increasing order. |
| Device.NoteIsRead | mockipa/result.go:39-98 | The eIM decodes a notification of the device and reads the number it was issued with. |
| Runner.FilterInPlace | mockipa/runner.go:324-330 | The in-place filter leaves the unacknowledged notifications, in order, at the front of the array. |
| Runner.DeviceState.AssociationToken | mockipa/device_view.go:64-77 | The token of an eIM with an ID, if there is one. |
| Runner.DeviceState.SetAssociationToken | mockipa/device_view.go:79-87 | Sets the token; an empty eIM ID is ignored. |
| Runner.DeviceState.ClearAssociationToken | mockipa/device_view.go:89-94 | Drops the token; an empty eIM ID is ignored. |
| Runner.DeviceState.ApplyPsmo | mockipa/device_view.go:108-117 | Enables or disables one profile, creating it; an empty ICCID is ignored. |
| Runner.DeviceState.SetProfileFallback | mockipa/device_view.go:119-131 | The fallback attribute moves to the named profile, in any order of the walk. |
| Runner.DeviceState.ClearProfileFallback | mockipa/device_view.go:133-138 | No profile keeps the attribute. |
| Runner.DeviceState.ListProfiles | mockipa/runner.go:461-476 | Reports every profile once, in the order of the walk. |
| Runner.Runner.NextNotificationSequence | mockipa/runner.go:339-346 | Numbers start at 1 and go up by one. |
| Runner.Runner.QueueNotification | mockipa/runner.go:292-304 | Appends one signed notification with the next number. |
| Runner.Runner.AcknowledgeNotifications | mockipa/runner.go:316-331 | The queue keeps what is not acknowledged and nothing else changes. |
| Runner.Runner.ApplyOperationState | mockipa/runner.go:359-403 | The effect of each operation on the device itself. |
| Runner.Runner.Prepare | mockipa/runner.go:158-174 | The signed result and the notifications that go up with it. |
| Runner.Runner.Settle | mockipa/runner.go:174-196 | After an answer the operation is applied and what was acknowledged is retired; after an error nothing is. |
| Answers.AnswerIsAccepted | mockipa/runner.go:432-521 | The eIM reads the device's result of every operation as a success, with the device's own token and profiles. |
| Answers.SignedIsVerified | mockipa/signing.go:15-62 | When both sides hold the same token, the octets the device signs are those the eIM verifies, and the result is accepted. |
| Exchange.UploadDecodes | mockipa/client.go:64-78 | The eIM reads back the result and the notifications the device put into its upload. |
| Exchange.AcknowledgedAreStored | esipa/handler.go:648-654 | For every upload: the acknowledgement list has no duplicates; under each number in it, but for the result's own, the store holds the last uploaded notification of that number; every other notification is as it was. |
| Exchange.PolledIs | esipa/handler.go:292-322 | A package handed out is a queued operation of the device, unchanged by being decoded and encoded again. |
| Session.Poll | esipa/handler.go:292-322 | The package a poll returns. |
| Session.PollOnce | mockipa/runner.go:95-197 | One poll answered with a package is an offer and its delivery between the values of the store and the device; any other poll changes nothing. |
| Agreement.EcoAgrees | euiccpkg/state.go:244-277 | After an addEim, updateEim, deleteEim or listEim the two sides agree on the token of every eIM ID if and only if an added eIM, or an updated one with a token, has an ID. |
| Agreement.TokensAfter | mockipa/runner.go:380-401 | The same for every single-operation package. |
| Agreement.EmptyEimIdDisagrees | mockipa/device_view.go:79-87 | With an empty eIM ID they disagree. |
| Agreement.ListingSyncs | euiccpkg/state.go:123-162 | After a listing the eIM's inventory is the device's, whatever it held before. |
| Agreement.OneFallback | euiccpkg/state.go:164-190 | Set-fallback leaves exactly one fallback profile on both sides, the named one. |
| Agreement.InventoryAfter | mockipa/runner.go:363-379 | Equal inventories stay equal through an operation if and only if enable, disable and set-fallback name an ICCID. |
| Runs.DeliveryAccepted | esipa/handler.go:592-655 | The upload of a device in agreement is accepted, applied and wholly acknowledged, whatever happened since the poll. |
| Runs.RetiredAreStored | mockipa/runner.go:174-184 | Whatever notification a device is told to retire, the eIM holds that very notification, whole; no other notification changes. |
| Runs.RunsKeepAgreement | mockipa/runner.go:158-197 | In every run, with anything between a poll and its delivery, the tokens agree for every eIM ID, pending notifications are in strictly increasing order, and every notification issued is pending or held by the eIM as it was issued. |
| Runs.FreshAgree | storage/memory/store.go:73-85 | An empty eIM and a device without tokens or notifications are in agreement. |
| Runs.EveryDeliveryIsAcknowledged | esipa/handler.go:592-655 | Whatever happened before, an upload under way is acknowledged when it is delivered. |
| Waiting.StaysFetched | storage/memory/store.go:295-325 | An operation among the first pending stays among them while others are enqueued and finished. |
| Waiting.EventOnward | storage/memory/store.go:230-436 | Everything that happens outside a device's exchange keeps its waiting operation pending and lets no other overtake it. |
| InventoryRuns.ListingCompletes | euiccpkg/state.go:89-93 | After a delivered listing the inventories are equal, whatever the eIM held before. |
| InventoryRuns.DeliveryKeepsInventory | mockipa/runner.go:363-379 | One delivery keeps them equal if and only if its package names its ICCID. |
| InventoryRuns.RunsKeepInventories | euiccpkg/state.go:78-107 | Every later run keeps them equal. |
| InventoryRuns.RunsKeepOk | mockipa/device_view.go:108-138 | In every run the device files each profile under the hexadecimal form of its ICCID. |
| InventoryRuns.EqualFromTheListingOn | euiccpkg/state.go:123-162 | From an empty eIM and a fresh device: after any run, a delivered listing and any run of packages that name their ICCIDs the inventories are equal. |
| Refusal.NotFoundLeaves | esipa/handler.go:592-655 | The eIM answers that it does not know an upload if and only if no operation matches it, and then its store is as before. |
| Refusal.RefusedStayEqual | mockipa/runner.go:173-196 | After such an answer tokens, and inventories, stay equal if and only if the operation changes none on the device. |
| Refusal.RefusedAddEim | mockipa/relay_client.go:120-129 | An addEim refused by an eIM without records leaves the device with a token the eIM does not hold. |
| Tlv.ParseWrite | asn1/codec.go:29-76 | Parsing an encoded tree, whatever follows it, gives the tree back. |
| Tlv.ParseOneWrite | asn1/codec.go:59-76 | The same for a message that is one object. |
| BitString.MarshalBitString | asn1/codec.go:182-195 | Sets the bits of a list, first bit highest, and counts the unused ones. |
| BitString.UnmarshalBitString | asn1/codec.go:197-217 | Reads the bits back; refuses a bad count and set padding. |
| BitString.UnpackPack | asn1/codec.go:182-217 | Every bit list survives encoding and decoding. |
| BitString.PackUnpack | asn1/codec.go:182-217 | Every accepted octet string is the encoding of what it decodes to. |
| EuiccPackage.ConfigRoundTrip | asn1/euicc_package.go:63-264 | An eIM configuration decodes to itself. |
| EuiccPackage.EcoRoundTrip | asn1/euicc_package.go:288-360 | So does every eIM configuration operation. |
| EuiccPackage.PsmoRoundTrip | asn1/euicc_package.go:404-530 | So does every profile operation, an absent immediate-enable payload coming back empty. |
| EuiccPackage.MarshalPackage | asn1/euicc_package.go:592-620 | The encoding loop makes one child per operation, in order. |
| EuiccPackage.UnmarshalPackage | asn1/euicc_package.go:623-655 | The decoding loop stops at the first child that does not decode. |
| EuiccPackage.PackageRoundTrip | asn1/euicc_package.go:592-655 | A package of any number of operations of either kind decodes to itself. |
| EuiccPackage.RequestRoundTrip | asn1/euicc_package.go:666-757 | A signed request decodes to itself, although the two kinds of operation share tags. |
| EuiccPackage.RequestWireRoundTrip | asn1/euicc_package.go:666-757 | The same through the octets. |
| PackageResult.RetagInvariant | asn1/result.go:800-812 | Re-tagging the selected arm as A0, A1 or A2 never changes what is decoded. |
| PackageResult.ResultRoundTrip | asn1/result.go:720-812 | All three alternatives decode to the same kind and fields, under every tag the arm may carry. |
| PackageResult.ExtractAgrees | euiccpkg/raw_tlv.go:28-70 | For every signed result or error within four length octets, in bare, A0 or A1 form, the byte-level extractor returns exactly the encoding of its signed data. |
| PackageResult.ExtractNothingUnsigned | euiccpkg/raw_tlv.go:28-70 | For unsigned errors it returns nothing. |
| ScannedMessages.SpansCut | euiccpkg/raw_tlv.go:88-99 | Octets that the parser reads as a list of objects are cut into exactly these objects by the scanner, if it accepts them. |
| ScannedMessages.ExtractedIsParsed | euiccpkg/raw_tlv.go:28-70 | For every message that parser and extractor accept, the extracted octets parse to the signed data of the message's arm. |
| ScannedMessages.VerifiedIsDecoded | euiccpkg/service.go:268-283 | What is decoded from such a message and what is verified are the same signed data. |
| SpanScanner.ParseTlvSpan | euiccpkg/raw_tlv.go:150-207 | The scanner's offsets of one object, and its errors. |
| SpanScanner.Children | euiccpkg/raw_tlv.go:88-99 | The spans of the children, each bounded by the whole buffer. |
| SpanScanner.RawSignedDataFromResultDer | euiccpkg/raw_tlv.go:28-114 | The extractor as a function of the octets. |
| SpanScanner.SpanOfWrite | euiccpkg/raw_tlv.go:150-207 | The scanner finds an encoded object exactly when its length takes at most four octets. |
| SpanScanner.SpansOfWrite | euiccpkg/raw_tlv.go:88-99 | The children of an encoded list are tiled by their spans. |
| SpanScanner.ExtractsSignedData | euiccpkg/raw_tlv.go:28-144 | The octets extracted are those of the first child of the arm. |
| SpanScanner.RefusesOversized | euiccpkg/raw_tlv.go:150-207 | Above four length octets the extractor refuses, so the limit is exact. |
| SpanScanner.ExtractsNothing | euiccpkg/raw_tlv.go:28-70 | An arm without a signature at its end has no signed data. |
| ResultItems.ProfileListRoundTrip | asn1/result.go:1221-1374 | A profile list of any length, or its error, decodes to itself. |
| ResultItems.ProfileListRetag | asn1/result.go:1350-1361 | The list as a bare SEQUENCE and as A0 decode alike. |
| ResultItems.AddEimRoundTrip | asn1/result.go:1395-1430 | An addEim result decodes to itself. |
| ResultItems.ListEimRoundTrip | asn1/result.go:1440-1530 | A listEim result decodes to itself. |
| ResultItems.AckRoundTrip | asn1/result.go:664-700 | An acknowledgement list decodes to itself. |
| IpaData.UnmarshalData | asn1/ipadata.go:430-495 | Reads the objects one by one and stops at the first that does not decode. |
| IpaData.WrappedIsRecognised | asn1/ipadata.go:253-294 | The wrapped form is recognised, and decodes to the data of its objects, if and only if there are no objects or one is not tagged like a notification. |
| IpaData.DefinedObjectsAreRecognised | asn1/ipadata.go:275-294 | So it is for every list with an object the response defines. |
| IpaData.BareDecodesAlike | asn1/ipadata.go:231-294 | The bare form decodes to the same data unless its only object is a notifications list that is empty or holds an A0 object, or an A1 object. |
| Journal.CanonicalInjective | dataact/journal.go:37-86 | For entries whose digests have equal lengths or one absent, field by field, and whose string lengths uint32 does not confuse, the canonical encoding determines every hashed field. |
| Journal.DigestLengthsCollide | dataact/journal.go:72-78 | For every digest and every greater length there are two entries that encode alike, one with that digest and one with a digest of that length in the same field. |
| Journal.SeparatesIff | dataact/journal.go:72-78 | The encoding separates two digest lengths of a field if and only if they are equal or one of them is 0. |
| Journal.VerifyJournalSlice | dataact/journal.go:88-135 | The verifier accepts exactly the slices whose records link, hash and meet the anchors. |
| Journal.AcceptedSlicesAgree | dataact/journal.go:88-135 | Accepted slices of equal length and equal last hash, comparable record by record as above, agree on every hashed field of every record, or two of their records are a hash collision. |
| Journal.CommandUnprotected | dataact/journal.go:37-53 | Replacing a command anywhere leaves a slice accepted. |
| Journal.BuiltRecordOk | dataact/journal.go:137-156 | A built record passes the verifier's checks. |
| Journal.BuiltChainAccepted | dataact/journal.go:137-156 | Every chain built record by record is accepted under matching or empty anchors. |
| Relay.Table.RememberTransaction | relay/relay.go:196-206 | Adds a route; an empty transaction or address adds none. |
| Relay.Table.ForgetTransaction | relay/relay.go:208-215 | Drops the route. |
| Relay.Table.SmdpForTransaction | relay/relay.go:217-226 | Looks the route up; an unknown transaction is an error. |
| Relay.StepInv | relay/relay.go:88-226 | Every step of every call keeps each route, and each address a routed call holds, to one that was initiated and that carried the transaction. |
| Relay.RoutesAreInitiated | relay/relay.go:88-226 | In every interleaving each route is of a transaction that an answered exchange with an initiated address carried; the routed calls post only where their own transaction was carried before, and what is posted is the request. |
| Relay.ExclusiveStays | relay/relay.go:63-70 | In every interleaving, all routed messages of a transaction that only one SM-DP+ ever carried go to that SM-DP+. |
| Relay.RedirectIff | relay/relay.go:101-145 | A held route changes its address if and only if a call files its transaction under the other address it was answered from. |
| Relay.RedirectedByAnswer | relay/relay.go:105-116 | An answer from one SM-DP+ that names a transaction of another takes over its route. |
| RelayFraming.TlvHeader | relay/relay.go:343-381 | The header reader, with the wrap-around of a 64-bit length. |
| RelayFraming.EncodeDerLength | relay/relay.go:383-402 | The length writer writes the shortest definite length. |
| RelayFraming.HeadRoundTrip | relay/relay.go:343-402 | Every length below 2^63 reads back and takes at most eight length octets. |
| RelayFraming.UnwrapWrap | relay/relay.go:308-341 | Every whole object, of the true length its header says, can be wrapped; unwrapping gives back whatever was wrapped, which is whole if and only if its length is below 2^63. |
| RelayFraming.UnwrapIsContent | relay/relay.go:318-341 | What unwraps is the tail of an envelope that says its length, and whole if and only if its own length is below 2^63. |
| RelayFraming.AcceptedIff | relay/relay.go:330-381 | A payload passes for an object if and only if its true length is right modulo 2^64. |
| RelayFraming.WrappedNotWhole | relay/relay.go:330-381 | A nine-octet length of 2^64 without contents is wrapped and unwrapped, and is no object. |
| Block2.PiecesInStep | esipa/coap.go:172-196 | Whatever smaller sizes a client switches to, its pieces are exactly the response so far, and the more flag is false only on the piece that ends it. |
| Block2.ClientCompletes | esipa/coap.go:172-196 | After one request for every 16 octets and one more, a client has the whole response. |
| Block2.OpeningCompletes | esipa/coap.go:152-158 | A short response goes whole; a long one starts with a client's first block of 1024 octets, from which the client gets the whole response at whatever smaller sizes it goes on. |

## Left out

- The bertlv library itself, INTEGER and BOOLEAN primitives beyond their round trips, and object identifier arcs: an OID is kept as its contents octets.
- UTF-8 validity of strings, letter case in hexadecimal beyond decoding, and white space other than ASCII in trimmed text.
- ECDSA, SHA-256, X.509 and chain validation; looking up the device's public key and the errors of that lookup.
- The postgres store, migrations, bundle import and export, HTTP, JSON, CoAP and DTLS listeners, the northbound API and the commands.
- Times, logging, contexts and cancellation, result-code names, and counters that pass 2^63.
- Profile download triggers, IPA data responses and error responses on the upload path: only uploads that carry an eUICC package result are handled.
- Unsigned errors are matched and recorded as the code does; redelivery and correlation results are about signed results.
- Runs in which the upload's answer is lost or a profile is downloaded.
- The random part of a signature: signing is a function of the octets.
- Packages of several operations are queued and decoded; the device refuses to answer them, so a run makes no progress on one.
- The blockwise response cache and its expiry; the BERT block size of RFC 8323.
- ListProfileStates: promises the members and not the order in which profiles are listed, on which nothing modelled depends.
- RecordEimPackageResult: starts from the message as a tree and a known EID; the mode that accepts unverified results, the lookup of the public key and the EID in an envelope are not modelled.
- Prepare: does not model the deferral while the device's certificate chain is not presented.
- Settle: does not model dropping notifications after a chain-not-presented rejection.
- PollOnce: covers polls answered with an eUICC package; what the device does with other answers is not modelled.
- ResultsCorrelate: is stated for at most 10000 operations of the device, the window the code searches; `Handler.CorrelateSound` and `Handler.CorrelateFetched` hold beyond it.
- RedeliveryIsHarmless: starts from the message as a tree; a signed result with counter 0 has to be a tree that octets carry.
- RunsKeepAgreement: is about uploads whose signed arm needs at most four length octets, which the extractor demands, token-safe operations, without which `Agreement.TokensAfter` says that the tokens part, and runs in which nobody but the device's exchanges writes its profiles and associated eIMs or finishes the operation under way.
