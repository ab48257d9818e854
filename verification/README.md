# Cylon: a verified model of the simulator's protocols

Cylon simulates LoRaWAN 1.0.3 end-devices ("tags"), a Basic Station gateway and a mock network server. This project
models the parts of it whose correctness is not visible in any one function: the OTAA session protocol between tag,
gateway and network server, the frame codecs and the gateway's bridge between them, the session store with its encrypted
columns, the server's shutdown, the orchestrator's concurrency, the event log, the live feed and the payload generators.

Code that updates state in place is modelled by classes and loops whose contracts tie the new state to a function of the
old one; code that interleaves goroutines is modelled by state machines whose steps are the source's lock sections,
channel operations and store statements, and its theorems quantify over every run. Everything is stated over arbitrary
cryptographic primitives (`Crypto.Primitives`, `Secret.Aead`). The only laws assumed of them are explicit hypotheses:
AES under a key is a permutation of blocks (`Lawful`), and the AEAD opens what it sealed, under the data it was sealed
with and no other.

| files | part of the program |
|---|---|
| `ByteStrings`, `Hex`, `Base64`, `Arithmetic`, `Queues`, `Traces`, `Wrappers` | shared vocabulary |
| `Crypto`, `Keys`, `Wire`, `JoinFrames`, `DataFrames` | frames and keys of LoRaWAN 1.0.3 |
| `Bridge`, `Gateways`, `GatewayServer` | the gateway |
| `Secret`, `Store`, `Sessions`, `Devices`, `DeviceRuns` | the persisted session and the device on top of it |
| `MockLns`, `LnsRuns` | the mock server's calls, and its goroutines interleaved |
| `Network`, `KeyAgreement`, `JoinRuns`, `StaleJoins`, `Rejoins`, `StoredKeys`, `Delivery` | the join and downlink protocol, end to end |
| `Orchestrator`, `JoinAll`, `Burst` | Start and Stop, JoinAll, Burst |
| `Events`, `Hub`, `Payloads` | event log, live feed, payload generators |

## Hypotheses the code relies on

Each of these is a hypothesis of a theorem below, and each has a lemma saying what happens without it.

- No `SaveJoinResult` of a tag between an uplink's `Get` and its `TakeFCntUp`. `JoinBetweenReadAndTake` says exactly when
  a join there reuses a (key, counter) pair, whatever else happens before the take, and `ReuseWithoutTheHypothesis` gives
  such a run.
- No `SaveJoinResult` of a tag between a downlink's `Get` and its `SetFCntDown`. `JoinBetweenReadAndStore` says exactly
  what the new session is then left with, and `StaleStoreHappens` gives such a run.
- At most one join per device under way. Without it `StoredKeysAgreeIff` says exactly when a stored session agrees with
  the server, in every reachable state, and `SavedKeysAgreeIff` which accept makes it so; `TwoJoinsDisagree` reaches a
  state in which they differ, and `JoinedClientRejoins` one in which a joined client changes its keys.
- Replies and pushes of the mock server take and write their DIIDs one after the other. Without it DIIDs are still
  distinct (`LnsRuns.DiidsDistinct`); `IncreasingIffNoOvertaking` says exactly in which runs they increase on the link,
  `ConfirmedInOrderIff` in which they are confirmed in order, and `PushOvertakesReply` is a run that writes the larger
  one first.
- Pushes to one device read the counter one after the other. `SharedCounterIff` says exactly when two carry the same one.
- A connection announces one DevEUI, and live ones differ. `StaleIffLeftBehind` and `MissingIffEvicted` say over every run
  exactly which entries are stale and which connections are missing otherwise, since `unregister` deletes by DevEUI.
- Starts of one tag do not overlap. `LeakedIffOverwritten` says exactly which connections are lost otherwise, and
  `OverlapHappens` gives a run that loses one.

## Findings

Places where the code does something its comments or its callers do not suggest; the model follows the code.

- `NextDevNonce` at 65535: the UPDATE is kept although scanning its result fails, and from then on every read of the row
  fails as well: the tag neither sends nor receives (`ExhaustedRowIsDead`).
- A client that has joined reads every later accept as data, so it cannot normally rejoin on its connection. The exception
  is an accept that its join already holds, or that was left in `joinCh` for a join that waits or can still be started:
  then, and only then, its keys can change (`RejoinIff`). With one join at a time that never happens
  (`DisciplinedClientKeepsKeys`); with two it does (`JoinedClientRejoins`).
- A client created for a stored session sends nothing until it joins again, because `joined` starts false and `Start` skips
  the join (`ReconnectedClientIsMute`).
- `PushClassC` reads the counter it has stepped on again after unlocking, so two concurrent pushes can be framed with the
  same counter, under one keystream, while another counter is skipped (`PushesShareCounter`).
- A push that starts once the join's session is stored can be written before the reply to that join, with the larger DIID
  first (`PushOvertakesReply`). DIIDs fail to increase exactly when a write overtakes a goroutine that already holds a
  smaller one and later writes it (`IncreasingIffNoOvertaking`).
- The dedup test is strict, so a downlink just accepted is accepted again (`AcceptedIffNotPassed`).
- `ParseDownlink` ignores the DevAddr it is given, and reads a 16-bit counter: counters from 2^16 on fail
  (`DownlinkRoundTrip`).
- `buildDataDownlink` encrypts FPort 0 with the AppSKey while the device decrypts it with the NwkSKey as MAC commands
  (`DownlinkRoundTrip`).
- With encryption disabled a plaintext that begins with the version prefix cannot be read back (`OpensOnlyInPlace`); an
  AppKey or a session key that does makes its row unreadable (`ReadsBackWhatWasSaved`), which no key saved by a join does
  (`SavedJoinIsReadBack`).
- The doc comment of `SetFCntDown` speaks of the highest counter seen; that holds between joins only because of the dedup
  test in its caller (`StoredCounterIsLargestAccepted`).

## Model

| member | source | states |
|---|---|---|
| Keys.DeriveSKey | internal/tag/keys.go:21-49 | filling the 16-byte buffer in place yields AES of type, JoinNonce, NetID, DevNonce and zero padding; a JoinNonce over 24 bits is an error |
| Keys.KeyOrigin | internal/tag/keys.go:37-48 | the block layout loses nothing: type, JoinNonce, NetID and DevNonce can each be read back from a derived key |
| Keys.SessionKeyInjective | internal/tag/keys.go:51-59 | two derivations under one AppKey give the same key if and only if all four inputs agree |
| Wire.DecodeEncodePhy | internal/gateway/metadata.go:48-51 | decoding a PHYPayload undoes encoding for every frame the 1.0.3 layout can carry |
| Wire.EncodeDecodePhy | internal/gateway/metadata.go:48-56 | re-encoding a decoded frame gives the same bytes if and only if the three reserved MHDR bits were zero, and always from the second byte on |
| JoinFrames.BuildJoinRequest | internal/tag/join.go:33-50 | the request built in place is the signed frame of these identifiers and this DevNonce |
| JoinFrames.ParseJoinAccept | internal/tag/join.go:55-97 | in-place decryption, MIC check and key derivation compute the functional reading of the accept, error cases included |
| JoinFrames.JoinAcceptRoundTrip | internal/mocklns/mocklns.go:258-280 | the device reads back every field the server put in its accept and derives the keys of that JoinNonce and its own DevNonce |
| JoinFrames.AcceptDoesNotBindDevNonce | internal/tag/join.go:64-84 | one accept passes for any two requests of a device, and the keys agree only if the DevNonces do |
| DataFrames.BuildUplink | internal/tag/data.go:26-61 | builds the encrypted and signed uplink, FPort 0 under NwkSKey and any other port under AppSKey |
| DataFrames.CryptTwice | internal/tag/data.go:139-157 | the payload keystream of section 4.3.3 is its own inverse |
| DataFrames.CollectMacCommands | internal/tag/data.go:164-181 | every non-empty MAC command is surfaced once, in order, split into identifier and payload; other payloads are skipped and a command that does not marshal is an error |
| DataFrames.ParseDownlink | internal/tag/data.go:90-162 | MIC check, MAC commands from FOpts and FPort 0, and payload decryption compute the functional reading, error cases included |
| DataFrames.DownlinkRoundTrip | internal/mocklns/mocklns.go:240-256 | the device reads the server's downlink back, payload, FPort and counter, if and only if the counter is below 2^16 and a non-empty payload is not on FPort 0 |
| DataFrames.CounterBound | internal/tag/data.go:102-118 | whatever arrives, an accepted downlink's counter fits 16 bits |
| Bridge.UplinkFCtrl | internal/gateway/metadata.go:110-126 | the flag byte set bit by bit decodes to the same flags and FOptsLen |
| Bridge.MarshalPayloads | internal/gateway/metadata.go:128-138 | the payloads that marshal, concatenated in order, skipping the others |
| Bridge.ForwardedIffWellFormed | internal/gateway/metadata.go:43-108 | a frame is forwarded if and only if it is a well-formed join-request or data uplink |
| Bridge.BridgeLossless | internal/gateway/metadata.go:43-108 | from the Jreq or Updf fields the frame is rebuilt byte for byte, MIC included, if and only if the reserved MHDR bits are zero |
| Bridge.BridgeInjective | internal/gateway/metadata.go:57-103 | different frames with clear reserved bits are never forwarded as the same message |
| Bridge.ForwardsJoinRequest | internal/gateway/metadata.go:60-76 | a tag's join-request is forwarded with its own EUIs and DevNonce |
| Bridge.ForwardsUplink | internal/gateway/metadata.go:78-103 | a tag's uplink is forwarded still encrypted, and decrypts to the data with the session key and the full counter |
| Bridge.UplinkIsRebuilt | internal/gateway/metadata.go:78-103 | the frame the tag built, with its MIC, can be rebuilt from what is forwarded |
| Sessions.ParseKeyRoundTrip | internal/tag/codec.go:23-34 | a session key saved as hex is read back |
| Devices.Device.BuildJoinRequest | internal/tag/device.go:55-65 | the DevNonce is persisted first, and the request carries the persisted value |
| Devices.Device.CompleteJoin | internal/tag/device.go:69-83 | an invalid accept leaves the store unchanged; a valid one replaces the session |
| Devices.Device.BuildUplink | internal/tag/device.go:88-118 | an uplink is built if and only if the session is joined and readable and there is a payload, with the keys read and the counter taken; once the session is joined the counter is consumed even if building fails |
| Devices.Device.HandleDownlink | internal/tag/device.go:145-180 | a downlink is returned and its counter stored if and only if it decodes and is not stale; otherwise nothing changes |
| DeviceRuns.NoCounterReuse | internal/tag/device.go:88-118 | over every interleaving with no join saved between read and take, no two uplinks, on whatever ports, share encryption key and counter; rejected accepts may come at any time |
| DeviceRuns.JoinBetweenReadAndTake | internal/tag/device.go:89-97 | a join saved between read and take, with any steps before the take: the uplink reuses a pair if and only if the replaced session had sent the counter the new one has reached, the number of takes since the join |
| DeviceRuns.ReuseWithoutTheHypothesis | internal/tag/device.go:89-97 | a concrete run in which that happens |
| DeviceRuns.KeystreamNeverRepeats | internal/tag/data.go:45-51 | over every such run no two keystream blocks, within one uplink or of two, come from the same key and input block |
| DeviceRuns.NonceAllocation | internal/store/sessions.go:94-112 | over every run nonces issued are strictly increasing in 1..65535, bounded by the stored one, and no two completed joins use the same |
| DeviceRuns.NoncesRunOut | internal/store/sessions.go:94-112 | after the last nonce no join-request is ever built again |
| DeviceRuns.ExhaustedRowIsDead | internal/store/sessions.go:51-71 | one attempt later the row is unreadable: what is half done is finished, but no uplink and no handling of a downlink begins, for good: what is under way later was under way then |
| DeviceRuns.StoredCounterIsLargestAccepted | internal/tag/device.go:145-180 | over every run with no join saved between a downlink's read and store, FCntDown is the largest counter accepted for the session, and accepted counters never decrease |
| DeviceRuns.AcceptedIffNotPassed | internal/tag/device.go:172-179 | a decodable downlink is taken if and only if its counter is not below the stored one, so the same one again is taken too |
| DeviceRuns.JoinBetweenReadAndStore | internal/tag/device.go:146-179 | a join saved between read and store, with any steps in between: the new session starts from the counter the old one accepts, which does no harm if and only if the frame is refused or has counter zero |
| DeviceRuns.StaleStoreHappens | internal/tag/device.go:146-179 | for every positive counter, a run in which a downlink of the replaced session leaves that counter to the new one, which then refuses its own below it |
| Base64.RoundTrip | internal/secret/secret.go:97-113 | decoding undoes encoding for every byte string (section 4 of RFC 4648) |
| Base64.RawRoundTrip | internal/secret/secret.go:75-79 | the unpadded spelling decodes as such, and a decoder that expects padding refuses it |
| Secret.KeySpellings | internal/secret/secret.go:69-81 | a 32-byte key is recognised in hex and in base64 with and without padding |
| Secret.OpensOnlyInPlace | internal/secret/secret.go:88-127 | a value opens under the data it was bound to and under no other; disabled, it reads back if and only if it does not look encrypted |
| Secret.SessionAadInjective | internal/store/sessions.go:46-48 | session cells are bound to the same data only if row id and column agree |
| Secret.TagAadInjective | internal/store/tags.go:51-53 | tag rows are bound to the same data only if their DevEUIs agree |
| Secret.TablesDisjoint | internal/store/sessions.go:46-48 | the two tables never share binding data |
| Store.Repo.Create | internal/store/tags.go:57-98 | a tag and its session row are inserted together, or neither if the DevEUI is taken |
| Store.Repo.Delete | internal/store/tags.go:148-164 | deleting a tag deletes its session |
| Store.Repo.TakeNonce | internal/store/sessions.go:96-112 | the increment is kept even when its result does not fit a uint16 |
| Store.Repo.SaveJoin | internal/store/sessions.go:116-144 | keys encrypted for their own cells, both counters reset, DevNonce kept |
| Store.Repo.TakeCounter | internal/store/sessions.go:148-164 | fetch and increment of FCntUp |
| Store.Repo.StoreFCntDown | internal/store/sessions.go:167-180 | sets FCntDown and nothing else |
| Store.SaveJoinActsOnSession | internal/store/sessions.go:116-144 | through either cipher, a saved join is what the next reader sees if and only if both its keys are read back, which with encryption configured they always are |
| Store.SavedJoinIsReadBack | internal/tag/device.go:69-83 | the hex keys of a completed join are read back under either cipher |
| Store.CountersActOnSession | internal/store/sessions.go:94-180 | the counter statements act on the session as read back, as long as it stays readable |
| Store.ColumnsAreBound | internal/store/sessions.go:81-90 | after every run of creations, joins, deletions and counter updates each protected cell opens to the value last saved there, and in no other cell of either table |
| Store.ReadsBackWhatWasSaved | internal/store/tags.go:166-195 | after every run, under either cipher, the repositories return the AppKeys and session keys last saved or fail, and exactly when they fail |
| MockLns.Server.OnJreq | internal/mocklns/mocklns.go:161-189 | undisturbed, a request always uses up a join nonce; if answerable it replaces the device's session and is answered, if not the gateway connection is no longer served |
| MockLns.Server.PushDownlink | internal/mocklns/mocklns.go:201-238 | undisturbed, a push takes the device's next downlink counter, before it finds out whether there is a gateway, and is built with the keys of its remembered join |
| LnsRuns.DiidsDistinct | internal/mocklns/mocklns.go:174-188 | however replies and pushes interleave, no two messages written carry the same DIID |
| LnsRuns.DiidsIncrease | internal/mocklns/mocklns.go:192-196 | if they take and write DIIDs one after the other, DIIDs on the link increase |
| LnsRuns.IncreasingIffNoOvertaking | internal/mocklns/mocklns.go:192-196 | over every run, DIIDs on the link increase if and only if no write is made while a goroutine that later writes a smaller DIID already holds it |
| LnsRuns.SentLaterIff | internal/mocklns/mocklns.go:174-188 | a smaller DIID follows a larger one on the link if and only if it was overtaken in that way |
| LnsRuns.PushOvertakesReply | internal/mocklns/mocklns.go:167-188 | otherwise a run writes DIID 2 before DIID 1 |
| LnsRuns.JoinNoncesDistinct | internal/mocklns/mocklns.go:161-169 | however many connections are served at once, no two joins get the same join nonce, and all fit 24 bits |
| LnsRuns.JoinNoncesIncrease | internal/mocklns/mocklns.go:126-139 | with one gateway connection served at a time, join nonces increase |
| LnsRuns.IssuedKeysDistinct | internal/mocklns/mocklns.go:161-169 | under every interleaving all session keys issued, of both kinds, for all devices, are pairwise distinct whatever the DevNonces |
| LnsRuns.SharedCounterIff | internal/mocklns/mocklns.go:202-225 | two pushes of one join carry the same counter if and only if no push stepped it on between their reads |
| LnsRuns.PushesShareCounter | internal/mocklns/mocklns.go:205-225 | a run in which two concurrent pushes are framed with one counter |
| LnsRuns.UndisturbedAnswer | internal/mocklns/mocklns.go:161-189 | in every reachable state, a request answered without interruption has the effect of the undisturbed call |
| LnsRuns.UndisturbedPush | internal/mocklns/mocklns.go:201-238 | and so has a push |
| KeyAgreement.CompletedJoinsAgree | internal/tag/client.go:51-105 | in every reachable state of any number of tags, links, gateway and server, with one join per device at a time, a completed join's stored keys are those the server derives |
| KeyAgreement.DisciplinedRunsAreGood | internal/gateway/gateway.go:117-166 | the channel invariant behind it: at most one join message per device anywhere, and any accept under way answers the latest request |
| StaleJoins.SavedKeysAgreeIff | internal/tag/client.go:95-101 | saving an accept gives both ends the same keys if and only if it carries the join nonce and answers the DevNonce the server remembers |
| StoredKeys.StoredKeysAgreeIff | internal/tag/client.go:87-105 | in every reachable state of every run, a stored session agrees with the server if and only if the join nonce and DevNonce it came from are those the server remembers for the device |
| StoredKeys.RunsAreSound | internal/mocklns/mocklns.go:161-189 | the invariant behind it: every downlink anywhere is a data frame or an accept of this server, and every stored session came from one of those accepts |
| StaleJoins.TwoJoinsDisagree | internal/tag/client.go:67-72 | with two joins under way a reachable state has a completed join whose keys disagree |
| Rejoins.RejoinIff | internal/tag/client.go:67-100 | over every run, a joined client that stays connected can get other session keys if and only if its join holds what passes for an accept, or joinCh does with a join waiting or a DevNonce left to start one; then that join changes them |
| Rejoins.DisciplinedClientKeepsKeys | internal/tag/client.go:67-100 | with one join at a time a joined client keeps its keys while connected, also with a data frame left in joinCh |
| Rejoins.JoinedClientRejoins | internal/tag/client.go:67-72 | with two joins under way some joined client does change its keys |
| StaleJoins.ReconnectedClientIsMute | internal/tag/client.go:32-39 | in any run a new client for a stored session takes no counter and accepts no downlink until it joins: its session stays as stored |
| Delivery.PushesArriveInOrder | internal/mocklns/mocklns.go:201-238 | over every undisturbed run from a ready tag with up to 2^16 pushes, those received are the oldest, once each, in order, with counters from 0 and payloads intact |
| Delivery.AllPushesArrive | internal/tag/client.go:74-81 | when nothing is in transit any more, all pushes have been received |
| Delivery.AnnouncedTagIsReadyIff | internal/tag/client.go:95-101 | whenever a disciplined run announces a join, the tag is ready for delivery if and only if it is registered, nothing is in transit to it and nothing was pushed since the answer |
| Delivery.ReadyIsReached | internal/tag/client.go:87-105 | one join from the start reaches a ready tag |
| GatewayServer.WaitGroupCounts | internal/transport/server.go:36-72 | in every reachable state the WaitGroup equals the accept loop plus the goroutines, started or about to be |
| GatewayServer.ShutdownIsComplete | internal/transport/server.go:74-87 | once Close has returned nothing can happen any more: no handler runs or can start, the active set is empty and every accepted connection is closed |
| GatewayServer.ServingConnectionsAreClosed | internal/transport/server.go:76-82 | once Close has set its flag, every connection still being served has been closed |
| GatewayServer.RegistryIsSound | internal/gateway/gateway.go:83-115 | if connections announce one DevEUI each, every entry belongs to a connection being served that announced it |
| GatewayServer.RegistryIsExact | internal/gateway/gateway.go:168-178 | if live DevEUIs are also distinct, the registry is exactly the live announced connections |
| GatewayServer.NoEntriesAfterClose | internal/gateway/gateway.go:67-80 | ConnCount is zero after Close |
| GatewayServer.StaleIffLeftBehind | internal/gateway/gateway.go:83-89 | over every run, an entry belongs to a connection no longer served if and only if that connection left holding it under another DevEUI than its last, or the empty one, and nothing touched the entry since |
| GatewayServer.MissingIffEvicted | internal/gateway/gateway.go:168-178 | over every run, a served connection that announced itself is missing if and only if another overwrote its entry by announcing its DevEUI, or removed it by leaving after announcing it last, and it has not announced itself again |
| GatewayServer.StaleEntryHappens | internal/gateway/gateway.go:100-102 | a run that leaves a stale entry |
| GatewayServer.MissingHappens | internal/gateway/gateway.go:174-178 | a run in which a connection displaces another, and one in which a leaving one removes it |
| Gateways.Gateway.HandleUplink | internal/gateway/gateway.go:117-136 | every uplink takes a fresh xtime, is parsed with it, and a data uplink binds its DevAddr to the sender |
| Gateways.Gateway.Turn | internal/gateway/gateway.go:91-114 | one turn of a connection's read loop: what it registers, remembers and forwards |
| Gateways.Gateway.OnDnmsg | internal/gateway/gateway.go:140-166 | a downlink is written to the registered connection and confirmed only after the write went through |
| Gateways.ConfirmsAreASubsequence | internal/gateway/gateway.go:140-166 | over every run the confirmed DIIDs are a subsequence of the handled ones |
| Gateways.ConfirmedWasWrittenOnce | internal/gateway/gateway.go:140-166 | each confirmation follows exactly one write, of the unchanged pdu, to the connection registered for its device at that moment |
| Gateways.ConfirmsHaveTheirOwnStep | internal/gateway/gateway.go:140-166 | confirmations come from different downlinks, in the order handled |
| Gateways.ConfirmedAtMostOnce | internal/gateway/gateway.go:140-166 | fed by the mock server, however its goroutines interleave and whatever other gateways it serves, every DIID is confirmed at most once |
| Gateways.ConfirmedInOrderIff | internal/gateway/gateway.go:140-166 | and they are confirmed in increasing order if and only if no confirmed DIID overtook another confirmed one at the server |
| Gateways.ConfirmedInOrder | internal/gateway/gateway.go:140-166 | as they are if the server takes and writes DIIDs one after the other |
| Gateways.RoutedToServedConnections | internal/gateway/gateway.go:140-145 | the registry downlinks are routed by is the server's, so with one DevEUI per connection they go to connections being served that announced the device |
| Orchestrator.ConnectionsHaveOneOwner | internal/sim/orchestrator.go:60-120 | under every interleaving a connection is in at most one hand, and in none once closed |
| Orchestrator.LeakedIffOverwritten | internal/sim/orchestrator.go:116-118 | over every run a connection is lost if and only if some Start inserted its tag over the entry holding it |
| Orchestrator.ConnectionsAreOwned | internal/sim/orchestrator.go:216-238 | without overlapping Starts of a tag nothing is lost, and when nothing is in progress each dialled connection is closed or held by exactly one entry, not both |
| Orchestrator.OverlappingStartsLeak | internal/sim/orchestrator.go:61-66 | of two Starts of one tag that both get through their check, the first to insert loses its connection |
| Orchestrator.OverlapHappens | internal/sim/orchestrator.go:60-120 | for every tag a run of two such Starts that loses a connection |
| JoinAll.TotalsAddUp | internal/sim/orchestrator.go:146-169 | under every interleaving, once the tags are listed JoinAll returns with one finished Start per enabled tag, started counting the successes, and started + errs their number |
| JoinAll.FailedListing | internal/sim/orchestrator.go:142-145 | if the tags cannot be listed it returns (0, 1) and starts nothing |
| JoinAll.NothingAfterReturn | internal/sim/orchestrator.go:142-168 | nothing is counted after the return |
| Burst.SharesAreFair | internal/sim/orchestrator.go:189-203 | on return exactly count uplinks were attempted and have finished, and each tag had the quotient, one more for the first count mod n |
| Burst.AtMostAtOnce | internal/sim/orchestrator.go:183-199 | in every reachable state at most max(1, atOnce) uplinks are in flight |
| Burst.NeverStuck | internal/sim/orchestrator.go:183-202 | Burst cannot deadlock, whatever atOnce |
| Events.EventRepo.Append | internal/store/events.go:42-55 | an event gets an id above all earlier ones, pruned ones included |
| Events.EventRepo.List | internal/store/events.go:58-104 | the newest matching events, newest first, up to the clamped limit |
| Events.EventRepo.Prune | internal/store/events.go:107-121 | leaves exactly the newest min(max(keep, 0), n) events and returns how many were removed |
| Events.FeedIsExact | internal/store/events.go:67-87 | a listing holds exactly the matching events, each once, by decreasing id |
| Events.PagesYieldTheFeed | internal/store/events.go:77-87 | paging by BeforeID yields, page by page, exactly the events that matched at the first page, newest first, whatever is appended meanwhile |
| Events.PagingIsComplete | internal/store/events.go:57-87 | enough pages give all of them; one page per matching event always is enough |
| Events.PruneCutsTheTail | internal/store/events.go:107-116 | pruning cuts the oldest end off every listing and changes nothing else |
| Hub.FeedHub.Send | internal/api/hub.go:68-77 | a broadcast is queued for every registered client with room and dropped for the others, whatever the order of visits |
| Hub.FeedIsFaithful | internal/api/hub.go:40-77 | over every schedule a client's queue is at most 64 long and what it sees is a subsequence of the broadcasts, all of them if and only if its queue was never full at one |
| Hub.OfferedAreTheBroadcasts | internal/api/hub.go:86-96 | those broadcasts are the ones made while the client was registered |
| Payloads.CounterNext | internal/tag/payload.go:116-125 | the buffer, padded or cut, is the counter's big-endian form in exactly the configured size |
| Payloads.CounterValue | internal/tag/payload.go:116-125 | the counter payload reads back as the counter modulo 256 to the min(size, 4) |
| Payloads.CounterRepeatsIff | internal/tag/payload.go:116-125 | two counters give the same payload if and only if they agree modulo that bound |
| Payloads.RampNext | internal/tag/payload.go:139-145 | byte i of a ramp is (fcnt + i) mod 256 despite the uint32 wrap |

## Left out

- brocaar/lorawan, the frame library, is not part of this model: frames follow sections 4.1 to 4.4 and 6.2 of LoRaWAN 1.0.3, including its rule against FPort 0 with FOpts, and a JoinNonce over 24 bits is taken to fail to marshal.
- AES, CMAC and GCM are abstract functions; MAC-command syntax is an abstract decoder.
- JoinFrames.ParseJoinAccept: does not model the CFList of a 28-byte accept, nor OptNeg; the mock server sends neither, and the device stores neither.
- RX2Freq and the cflist column of a session, which joins here never fill.
- SQLite, goose migrations, JSON, NDJSON framing, sockets and WebSockets: statements act on maps and sequences, links are FIFO queues, and an I/O error is a choice of the environment.
- Devices.Device.HandleDownlink: one step as a method; `DeviceRuns` interleaves its two statements.
- MockLns.Server.PushDownlink: one step as a method, like OnJreq; `LnsRuns` interleaves the steps of both.
- KeyAgreement.CompletedJoinsAgree: the network of many tags takes each call of the mock server as one step, and the server goes on after a request it cannot answer; after a reconnect the gateway reads a prefix of what the old connection carried before the new greeting, and the two connections' messages are not interleaved further.
- Gateways.Gateway.OnDnmsg: one step, because the registry is read once; the read loop that calls it is sequential.
- Gateways.Gateway.HandleUplink: xtime is unbounded, where the source has an int64.
- Events.EventRepo.List: scan errors and `ON DELETE SET NULL` on tag_id are not modelled.
- Orchestrator.ConnectionsAreOwned: connections closed by the peer, and context cancellation of the read loop, are not modelled.
- ChooseRXWindow appears only as a helper; AllowsJoinEUI, key masking and EUI normalisation are settled by reading one branch.
- The sine and random generators, EUI randomness, and the JSON of payload configurations.
- Time-outs are steps that may happen at any moment; that messages eventually arrive is not claimed.
- HTTP handlers, CLI, configuration, metrics, logging and the web UI.
