# Verified model of the controller core

A Dafny model of the parts of the controller whose correctness spans many calls: the adoption
engine run over whole histories of informs, admin saves and sweeps; the WLAN delivery
bookkeeping; the provisioning plan, its drift hash and the rendered wireless rows; the client
sessions, roam tracker and history; and, around them, the record trust policy, the JSON store's
save ordering, the inform packet codec, the discovery note and the SSH key blob.
`dafny verify dfyconfig.toml` checks everything.

## How the model is built

*Value level.* `Engine.Next` is one step of one device record: an encrypted or plaintext inform
(`Absorb`, session refresh, `Decide`, the outcome's deltas, all inside one read-modify-write), an
admin save, or a lost sweep. `Engine.After` folds steps; every "in every run" result below
quantifies over all step lists from `Engine.Start`, the record that device creation or promotion
seeds. Some results add the device: `KeySafety` pairs the record with a device behind a lossy or
late channel, `Convergence`, `Recovery` and `Saves` with a device that applies every push.

*Imperative level.* Code that assigns fields, mutates maps or loops is modelled by classes and
methods (`Adapter`, `Sessions.SessionRecord`, `Tracker.ClientTracker`, `History.FileSink`,
`Emitter.Renderer`, `TrustPolicy.RecordRows`, and loop methods elsewhere). Each is proved equal to
a function or decided by a predicate of the value level, so the theorems about those hold of the
methods.

| file | contents |
|---|---|
| `Engine`, `Adapter` | the decision, inform cycle, admin saves and sweep, as step functions and as field-assigning methods |
| `RecordInvariant`, `KeySafety`, `Convergence`, `Recovery`, `Saves`, `BoundedDelivery`, `WatchdogRuns`, `BlockedRuns` | theorems over whole runs |
| `Lanes`, `Watching` | what each lane tells and takes, armed commands and saves; the watchdogs in terms of reported tables |
| `Delivery`, `Wlans`, `Plan`, `BlockedSta` | settle, offer and retry bookkeeping; the stored blob and drift hash; the vap plan and vap evidence; the blocked set |
| `Planned`, `Settling` | a plan in terms of the radio table and the WLAN list; the settle proof in terms of the reported rows |
| `Render`, `Emitter`, `Wiring`, `OnAir` | wireless, aaa, vlan, bridge and netconf rows as functions; the emitter; the network the rendered rows build and what they put on the air |
| `Visible`, `Readback`, `ReadEap`, `ReadVap`, `ReadConfig`, `DriftHash`, `Residuals`, `Printed` | what rows show of a WLAN; reading it back from the rows, from single lines up to the whole config; hash against rows; the edits that move the hash alone; rows against text |
| `Sessions`, `Tracker`, `TrackerLog`, `Grace`, `History`, `Stretches`, `Pipeline` | session refresh, tracker, replay of its log, its grace window by the clock, history sink and fold, stretches and answers event by event, rows against tracker with reports in between |
| `TrustPolicy`, `Projection`, `Store` | ownership classes of the record's raw rows; the typed record against them; interleaved updates and saves |
| `Packet`, `Note`, `SshBlob` | packet codec and key trial, discovery note printer and parser, key blob walk |
| `TextDigest` | SHA-256 of a text, for the fallback WLAN id |
| `Options`, `Text`, `Sorting` | shared helpers |

Modelling conventions. The record's `Extra` rows are typed optional fields. The sha256 of a WLAN
list or blocked set is a constructor applied to its preimage, so these digests agree exactly when
the hashed values do; the hashed JSON is the canonical value it encodes. The fallback WLAN id is
printed, so it is computed (`TextDigest.Hex24`) and ids are compared as text, coincidences with a
persisted id or between two fallbacks included. Random keys and config versions are serial numbers
handed out in order by a source that may fail (`Gen.left`); a refused cycle persists nothing, so
its serials were never published and may be handed out again. Keys are compared by equality
(the stored and candidate spellings are all lower-case hex). The session refresh enters the engine
as one bit, "a connected client left the table"; `Sessions` models the refresh itself. Device
bodies are assumed to carry no controller-owned row the record lacks;
`Projection.AbsorptionsAgree` shows this is exactly the condition under which typed and raw record
stay in step, whatever else the body carries.

Where code and comments differ, the model follows the code. `internal/wireless/plan.go:295-318`
describes the drift hash as moving only when the render moves, up to two residuals. That is false
of the code, and the exact condition is proved. Rows tell a `Visible.View` of each WLAN on each
radio and no more (`DriftHash.RowsAreViews`), and byte-identical text and equal rows are one thing
(`Printed.TextIsRows`), so the hash moves with no row moving on any device
exactly when the visible forms agree and the canonical lists differ (`Residuals.SpuriousIff`). For
an edit of one WLAN in any surroundings that is `Residuals.MovesHashOnly` (`ResidualIff`): both are
shown on the same bands, the same way where shown, and are not hashed alike. Edits of this kind are,
among others, each under the stated condition of its lemma in `Residuals`: persisting the fallback
id the device already runs; a rename under a set SSID and id; an SSID spelled out that the name
gives; any edit of a WLAN that stays disabled; an unknown band; a tag that folds to the same one; an
open WLAN's passphrase, and the default passphrase spelled out; an unknown security mode; any
profile outside `wpa-eap`; within it a secret without addressed servers, accounting with nobody to
account to, an unknown or spelled-out default VLAN mode, servers beyond the fourth or without
address at the end, the port of a slot without address; values holding a line break, which the
renderer drops. On lists: disabled WLANs, and a 2g-only WLAN swapped with a 5g-only neighbour. On
one device: a WLAN none of its radios takes, and the das flag without the capability. Between
envelopes in normal form (`DriftHash.Normal`: every WLAN on, on both bands, its SSID given by its
name, and with no setting its security mode does not use) hash and rows move together
(`NormalHashIffRows`).

The branch that guards the devname watchdog against an already pending reboot is dead code, as its
comment says (`WatchdogRuns.AlreadyPendingUnreachable`).

## Model

| member | source | states |
|---|---|---|
| `RecordInvariant.StepKeeps` | internal/server/adoption/engine.go:350-401 | every inform on either lane, admin save and sweep keeps the record invariant: at most two distinct keys, none of them the factory key, the assigned key among them; Pending means no keys and unconfirmed; Adopted or Lost means confirmed and with a WLAN baseline; a pending delivery means confirmed; delivery rows coherent; watchdog counters below two |
| `RecordInvariant.RunKeeps` | internal/server/adoption/engine.go:501-815 | the invariant holds after every run from a fresh record, including: a pending hash is the hash of the decoded pending snapshot, its offered version is recorded, its old snapshot is the applied one, and a baseline is the hash of the applied snapshot |
| `RecordInvariant.ConfirmationClearedOnlyByReset` | internal/server/adoption/engine.go:412-486 | the confirmation is lost only in a step that answers setdefault, and that step also clears both key rows and every swept row |
| `RecordInvariant.RotatedKeys` | internal/server/adoption/engine.go:942-976 | rotation leaves at most two distinct assigned keys, the new one among them |
| `KeySafety.RotationKeepsNewest` | internal/server/adoption/engine.go:942-976 | the new key comes last and the newest earlier key is kept |
| `RecordInvariant.RotateKeeps` | internal/server/adoption/engine.go:942-965 | a rotation that succeeds keeps the record invariant |
| `RecordInvariant.FlowKeeps` | internal/server/adoption/engine.go:874-925 | a full provisioning keeps the record invariant, its offer included |
| `KeySafety.NeverStranded` | internal/server/server.go:222-237 | with responses applied, lost or applied one exchange late, in every run without a factory reset the device's key stays among the keys the controller tries |
| `KeySafety.RejectionNeverHitsTheDevice` | internal/server/adoption/engine.go:501-524 | once confirmed, the device's key is an assigned one, so the refusal of the factory key never hits the device itself |
| `KeySafety.ExchangeSafe` | internal/server/adoption/engine.go:618-647 | one encrypted exchange over the lossy channel keeps device and record in step, whichever key the device used |
| `Convergence.AdoptedByFourthInform` | internal/server/adoption/engine.go:501-815 | a pending record and a device that applies every push, with nothing armed and every enabled WLAN placeable, are Adopted and settled after four informs, the fourth answered by a noop |
| `Convergence.StaysAdopted` | internal/server/adoption/engine.go:650-815 | every later inform is a noop, mints nothing and leaves the whole record as it was except its last-seen time |
| `Convergence.RunningPlanIsProven` | internal/wireless/delivery_state.go:170-250 | a vap table reporting exactly the planned vaps RUN satisfies the settle proof, whatever envelope was applied before |
| `Convergence.RunningPlanIsRun` | internal/wireless/delivery_state.go:279-308 | on such a table neither watchdog sees a miss |
| `Convergence.NothingMissing` | internal/wireless/plan.go:349-376 | no planned devname is missing from such a table |
| `Recovery.SettlesAgainIff` | internal/server/adoption/engine.go:593-616 | a pending delivery the device does not run yet, from any record with the invariant and the device on its assigned key, whatever watchdog counts, markers or disconnect event stand and whichever responses were lost, can settle by informs alone exactly unless its budget of six is spent for the current content with no blocked drift and no operator mint; then no number of informs settles it, otherwise two do |
| `Recovery.StuckForever` | internal/wireless/delivery_state.go:405-415 | in the spent case every inform is answered by the pending noop, at any times, and nothing is pushed |
| `Recovery.OpenSettles` | internal/server/adoption/engine.go:540-616 | whenever drift, a stale version or a release of the hold is present, two informs end Adopted and settled, the second answered by a noop |
| `Recovery.StuckIsReachable` | internal/server/adoption/engine.go:593-616 | such a spent record is reached, for every plannable envelope with an enabled WLAN, by a run from the fresh record whose device gets its keys and loses six pushes |
| `Recovery.SixLostPushes` | internal/wireless/delivery_state.go:405-459 | from any open record with attempts left and a device that runs nothing, losing every push leads there |
| `Recovery.OneRadioPlans` | internal/wireless/plan.go:229-268 | one enabled WLAN and one radio make a plannable envelope |
| `Saves.AnySavesSettle` | internal/app/app.go:147-187 | after any list of saves on a settled device, armed reboots, tasks and factory resets included, it is settled with nothing armed at most five informs later, on the saved envelope or, where the save did not move the drift hash, on the one before |
| `Saves.Resets` | internal/server/adoption/engine.go:412-486 | an armed factory reset leaves a pending candidate facing a factory device |
| `Saves.FiresAll` | internal/server/adoption/engine.go:412-486 | each armed reboot or task costs one inform and changes neither settledness nor what is due |
| `Convergence.Pushes` | internal/server/adoption/engine.go:874-925 | the first of the two carries the full configuration, leaves it pending and running on the device, and counts as one attempt of its content |
| `BoundedDelivery.DeliveryIsBounded` | internal/wireless/delivery_state.go:405-459 | while nothing changes and nothing settles, one envelope is pushed at most six times, push k+1 at least 2^k seconds after push k, 62 seconds from first to sixth |
| `BoundedDelivery.FlightStep` | internal/server/adoption/engine.go:593-616 | each step of such a regime keeps the delivery in flight and either provisions, one attempt and a due delay later, or leaves the attempt bookkeeping alone |
| `BoundedDelivery.DelayIsPowerOfTwo` | internal/wireless/delivery_state.go:405-415 | below the attempt limit the delay is a power of two and the 60 second cap never binds |
| `BoundedDelivery.OperatorContentIsDelivered` | internal/server/adoption/engine.go:593-616 | an operator's mint is delivered by the next assigned-key status inform, exhausted budget or not, with a version not offered before |
| `WatchdogRuns.CounterIsMissCount` | internal/wireless/delivery_state.go:326-339 | in every run the persisted counter equals the misses logged since the last RUN reading, mint, reboot or reset |
| `WatchdogRuns.MintNeedsTwoMisses` | internal/server/adoption/engine.go:698-718 | the SSID watchdog mints only right after a miss preceded by another miss with nothing restarting the window between |
| `WatchdogRuns.OneArmPerVersion` | internal/server/adoption/engine.go:727-802 | between two reboots armed for one config version there is a devname RUN proof or a factory reset |
| `WatchdogRuns.ArmedVersionBlocked` | internal/wireless/delivery_state.go:373-396 | until such an event the marker of an armed version stands, or that version can never return |
| `WatchdogRuns.AlreadyPendingUnreachable` | internal/server/adoption/engine.go:739-752 | no step reaches the branch for a reboot that is already pending |
| `WatchdogRuns.NoCountUnderOwnMarker` | internal/server/adoption/engine.go:753-773 | no reachable record has a devname miss count beside a marker for its own version |
| `WatchdogRuns.NextGrows` | internal/server/adoption/engine.go:942-965 | no step hands out a key or version serial a second time |
| `Watching.EvidenceByRow` | internal/wireless/delivery_state.go:279-308 | on a table with rows an applied SSID is found missing exactly when no RUN row carries it |
| `Watching.MissingByRow` | internal/wireless/plan.go:349-376 | nothing is missing exactly when every planned devname has a RUN row |
| `Watching.SsidGapStep` | internal/server/adoption/engine.go:698-718 | a status inform of a settled device whose table lacks an applied SSID: the first in a row is counted, the second mints one fresh version |
| `Watching.DevnameGapStep` | internal/server/adoption/engine.go:722-802 | one whose table runs every applied SSID and lacks a planned devname: counted, then the reboot armed for the running version, unless the marker of that version stands |
| `Watching.NoGapStep` | internal/server/adoption/engine.go:722-738 | one whose table runs everything clears every count and the marker and mints nothing |
| `Watching.TwoGapsArm` | internal/server/adoption/engine.go:722-802 | two such devname gaps in a row, in terms of the two tables: the reboot is armed after exactly the second, for the running version, if and only if no marker of that version stood |
| `Watching.ArmedMeansReboot` | internal/server/adoption/engine.go:412-486 | and the next assigned-key inform carries it, once |
| `Watching.TwoSsidGapsProvision` | internal/server/adoption/engine.go:698-718 | two SSID gaps in a row change the version to one never handed out, and the next inform that echoes the old one is provisioned in full |
| `BlockedRuns.BaselineIsLastSent` | internal/server/adoption/blockedsta.go:65-84 | in every run the baseline is the hash of the set carried by the last full provisioning |
| `BlockedRuns.ReconnectResendsLastSent` | internal/server/adoption/sessions.go:43-60 | a reconnect push carries exactly the set last provisioned, as a set and not only as a hash |
| `BlockedRuns.ChangedSetIsDelivered` | internal/server/adoption/engine.go:584-592 | a drifted blocked set outranks the retry limit: the next assigned-key status inform provisions in full with the new set |
| `BlockedRuns.DifferentSetIsDelivered` | internal/server/adoption/blockedsta.go:41-72 | in terms of sets: a set different from the one last sent is delivered, never answered by a noop |
| `BlockedRuns.AtMostOnePushPerDisconnect` | internal/server/adoption/sessions.go:43-68 | reconnect pushes never outnumber the committed informs that saw a disconnect, a standing event counting as one more push |
| `Engine.DriftFrame` | internal/server/adoption/engine.go:540-616 | what the drift phase may change and what an unset drift flag implies |
| `Engine.SaveFrame` | internal/app/app.go:147-187 | the only rows an admin save can touch; an effective save mints exactly one fresh version |
| `Lanes.PlainTellsNoKey` | internal/server/adoption/engine.go:822-856 | no plaintext inform of any record is ever answered with a key |
| `Lanes.PlainClaimUnproved` | internal/server/adoption/engine.go:845-851 | a plaintext claim that is not the assigned key gets the current version and nothing else: no command fires, nothing is minted, no row moves beyond what the body reported |
| `Lanes.PlainUnassigned` | internal/server/adoption/engine.go:822-844 | a record without an assigned key answers the plaintext lane by a noop and keeps its rows |
| `Lanes.PlainClaimProvisions` | internal/server/adoption/engine.go:852-856 | a matching claim with nothing armed is provisioned in full, from the radios just reported, with the blocked clients of the record |
| `Lanes.FactoryKeyRefusedIff` | internal/server/adoption/engine.go:501-524 | the factory key is refused exactly of a confirmed, adopted or lost device, and a refusal of a confirmed one stores nothing |
| `Lanes.UnknownTypeIsNoop` | internal/server/adoption/engine.go:525-532 | an inform of a type outside the nine answered ones is a noop on both lanes and leaves only the absorbed report |
| `Lanes.OlderKeyIsRepushed` | internal/server/adoption/engine.go:637-647 | an inform under an older assigned key is sent the current key and version again |
| `Lanes.CommandsInOrder` | internal/server/adoption/engine.go:412-486 | reset before reboot before task; each answers one inform, and exactly the rows it consumes change |
| `Lanes.VerbFires` | internal/server/adoption/engine.go:412-486 | what an operator armed is the answer to the next admitted inform, when nothing stronger was armed before |
| `Lanes.SavedWlansAreTheRecords` | internal/app/app.go:147-187 | a saved WLAN list is read back as saved, the empty one too; only an effective save mints |
| `Lanes.ChangedWlansAreFresh` | internal/server/adoption/engine.go:552-583 | a WLAN list that is neither the settled nor the pending one is provisioned by the next status inform, under a version never handed out before |
| `Lanes.ChangedBlockedAreFresh` | internal/server/adoption/engine.go:584-592 | so is a list of blocked clients other than the one last sent |
| `Lanes.UnsettledHeals` | internal/server/adoption/engine.go:664-683 | a device in step with a record that was never settled gets a fresh version and then a full provisioning under it |
| `Lanes.OwnKeyConfirms` | internal/server/adoption/engine.go:350-401 | a device that used a key of its own is confirmed, unless that inform reset it |
| `Lanes.PendingWaits` | internal/wireless/delivery_state.go:405-415 | an unproved delivery of k pushes is held for 2^k seconds after its last and pushed again from that very second on, under the same version |
| `Lanes.SpentBudgetShows` | internal/wireless/delivery_state.go:405-415 | six pushes spent without proof: the delivery is held, marked exhausted, and no other row moves |
| `Lanes.SilenceIsLost` | internal/app/app.go:1188-1230 | lost exactly when adopted, seen, and silent for more than 75 seconds; nothing else moves |
| `Lanes.SilenceSinceInform` | internal/app/app.go:1188-1230 | the silence counts from the last answered inform |
| `Lanes.WireCarries` | internal/server/adoption/blockedsta.go:41-50 | the wire text of a blocked row, place by place: 17 characters for each canonical client in increasing order, a line end between them |
| `Lanes.BlockSave` | internal/app/app.go:147-187 | a block or unblock save changes whom the row blocks by exactly that client and nothing else of the record |
| `Lanes.BlockReachesDevice` | internal/server/adoption/blockedsta.go:41-72 | the next full provisioning carries exactly whom the row blocks then: after a block the client too, after an unblock the client no more |
| `Lanes.ReconnectPushes` | internal/server/adoption/sessions.go:43-60 | on a settled device in step, a disconnect with someone blocked is answered by exactly that wire text, once |
| `Adapter.Device.AbsorbInform` | internal/store/trustpolicy.go:225-271 | the absorbed record keeps owned rows, takes reported radios and version, replaces the vap table, and arms the disconnect event only when one was seen |
| `Adapter.Device.SaveIntent` | internal/app/app.go:147-187 | the field assignments of each admin verb produce the saved record of `Engine.SaveIntent` |
| `Adapter.Device.BlockClient` | internal/store/blockedsta.go:51-66 | adding in any spelling rewrites the row to the sorted set with the client, or reports no change |
| `Adapter.Device.UnblockClient` | internal/store/blockedsta.go:72-92 | removing in any spelling rewrites the row to the sorted set without the client, or reports no change |
| `Adapter.Device.SweepLost` | internal/app/app.go:1188-1230 | the sweep marks a record lost exactly when it is adopted, was seen, and is stale at cycle time |
| `Adapter.KeySource.KeyChars` | internal/server/server.go:180-202 | a successful draw is fresh, a failed one changes nothing |
| `Adapter.DeliveryState.Settle` | internal/wireless/delivery_state.go:170-250 | the in-place settle promotes all rows together when the proof holds and otherwise leaves every row as it was |
| `Adapter.DeliveryState.Offer` | internal/wireless/delivery_state.go:433-459 | the in-place offer writes exactly the offered rows: same hash increments, another hash restarts the budget |
| `Adapter.DeliveryState.CheckRetry` | internal/wireless/delivery_state.go:405-415 | the verdict is the due rule, and an exhausted budget is marked |
| `Adapter.DeliveryState.Classify` | internal/wireless/delivery_state.go:279-308 | deleting running SSIDs from the enabled applied ones classifies a table as unknown, miss or run |
| `Adapter.FireArmed` | internal/server/adoption/engine.go:412-486 | setdefault before reboot before task; each consumed once; setdefault sweeps keys and bookkeeping |
| `Adapter.Rotate` | internal/server/adoption/engine.go:942-965 | two draws, new key appended and trimmed to the newest two; a failed draw is an error |
| `Adapter.Provision` | internal/server/adoption/engine.go:874-925 | mints a missing version, renders, offers, stamps the blocked baseline and consumes the disconnect event; a render failure is an error |
| `Adapter.Watch` | internal/server/adoption/engine.go:698-727 | the SSID watchdog on a connected record |
| `Adapter.WatchDevnames` | internal/server/adoption/engine.go:727-805 | the devname watchdog on a connected record |
| `Adapter.AnswerConnected` | internal/server/adoption/engine.go:664-697 | baseline self-heal, held delivery, reconnect push, then the watchdogs |
| `Adapter.DetectDrift` | internal/server/adoption/engine.go:540-592 | settle, then at most one mint for each kind of drift |
| `Adapter.HoldPending` | internal/server/adoption/engine.go:593-616 | an unchanged pending delivery is held unless the blocked set, an operator mint or a due retry releases it |
| `Adapter.AnswerByKey` | internal/server/adoption/engine.go:618-815 | factory key rotates, an older key is re-pushed, the assigned key is connected or provisioned |
| `Adapter.AnswerEncrypted` | internal/server/adoption/engine.go:501-815 | the encrypted lane in full |
| `Adapter.AnswerPlain` | internal/server/adoption/engine.go:822-856 | the plaintext lane in full |
| `Adapter.DecideInform` | internal/server/adoption/engine.go:350-401 | deciding on a clone leaves the stored record untouched, and snapshot plus deltas give the decided record |
| `Adapter.ApplyOutcome` | internal/server/server.go:710-822 | writing the deltas back restores the decided record |
| `Adapter.RunInformCycle` | internal/server/server.go:630-686 | one cycle ends in the record, outcome and serials of `Engine.InformCycle`; a refusal leaves the record as stored |
| `Delivery.CheckDelivery` | internal/wireless/delivery_state.go:178-224 | decrementing the need and placement maps row by row decides: no RUN row carries an SSID enabled before and no longer desired, and for every enabled desired SSID the sum over radios of min(RUN rows, planned placements) reaches its number of entries |
| `Delivery.WalkRunRows` | internal/wireless/delivery_state.go:204-219 | the loop over RUN rows: refused exactly at a removed SSID, else the maps hold what is still needed and still unplaced |
| `Delivery.CountRunRow` | internal/wireless/delivery_state.go:205-218 | one RUN row spends at most one placement and one need |
| `Delivery.CountNeed` | internal/wireless/delivery_state.go:191-195 | the need map counts the enabled entries of every SSID |
| `Delivery.SettleOrderIndependent` | internal/wireless/delivery_state.go:170-250 | permuting the reported rows never changes the settle verdict |
| `Settling.CoveredIff` | internal/wireless/delivery_state.go:178-224 | the decrementing count proves a network exactly when as many distinct RUN rows of it can be chosen as it has enabled entries, on no radio more than planned there |
| `Settling.ProvenByRows` | internal/wireless/delivery_state.go:170-250 | a table proves a delivery exactly when no row runs a network that was on before and is not wanted now, and rows can be chosen for every wanted one |
| `Settling.ProvisionThenSettle` | internal/server/adoption/engine.go:540-616 | after a full provisioning the next status inform settles exactly when its own table proves it: then the provisioned networks are the settled ones, otherwise what was settled stays |
| `Wlans.StoredRoundTrip` | internal/wireless/stored.go:42-128 | decoding an encoded WLAN list gives it back, RADIUS profile included |
| `Wlans.SnakeSpellingDecodes` | internal/wireless/stored.go:99-128 | a blob in the snake_case spelling decodes to the same list |
| `Wlans.SnakeSpellingWins` | internal/wireless/stored.go:93-128 | a profile set in snake_case is read as it stands whatever Go spelling stands beside it, and a flag is on when either spelling has it on |
| `Plan.PlanVaps` | internal/wireless/plan.go:229-268 | the nested loops with one devname counter compute the plan in radio order |
| `Plan.PlanSound` | internal/wireless/plan.go:229-268 | every planned vap is an enabled WLAN on a provisionable radio its band allows, and devnames number the vaps consecutively across radios |
| `Plan.PlanComplete` | internal/wireless/plan.go:229-268 | every enabled WLAN has a vap on every provisionable radio its band allows |
| `Planned.RadiosAreNamedRows` | internal/wireless/plan.go:73-97 | the radios of a device are exactly the named rows of its radio table, in the order of their names |
| `Planned.PlanIsExact` | internal/wireless/plan.go:229-268 | a plan has one vap for every enabled WLAN and usable radio of its band and no other, radio by radio and WLAN by WLAN, each with its number, radio, id and folded tag |
| `Planned.PlacementsCount` | internal/wireless/plan.go:378-390 | the recorded placements count the planned vaps of each SSID on each radio |
| `Plan.MissingExactly` | internal/wireless/plan.go:349-376 | on a table with rows a name is missing exactly when it is a planned devname and no RUN row carries it |
| `Plan.FindMissing` | internal/wireless/plan.go:349-376 | collecting, deleting what runs and sorting gives those names in increasing order |
| `Plan.ReadVapEvidence` | internal/wireless/vap_evidence.go:41-59 | the loop keeps exactly the RUN rows and tells an absent table from an empty one |
| `BlockedSta.BlockedClientsMeaning` | internal/store/blockedsta.go:26-44 | the blocked list is strictly increasing and holds exactly the canonical forms of the parseable entries |
| `BlockedSta.ReadBlockedClients` | internal/store/blockedsta.go:26-44 | the collect-then-sort loop returns that list |
| `BlockedSta.AddRemoveAreSetOperations` | internal/store/blockedsta.go:51-92 | add and remove act as insertion and deletion on the set, whatever the spelling, and report exactly whether it changed |
| `BlockedSta.WireInjective` | internal/server/adoption/blockedsta.go:41-57 | equal wire strings come from equal sets |
| `Text.MacSpelling` | internal/store/store.go:182-222 | a spelling is a MAC exactly when it has twelve hex digits in either case besides its separators; canonical is those digits in lower case |
| `DriftHash.RowsAreViews` | internal/server/systemcfg/wireless.go:65-680 | on every device and for all envelopes, the radio, wireless, aaa, vlan, bridge, netconf and dhcpc rows are equal exactly when the views are: per radio the tags, ids, SSIDs, keys, RADIUS slots and flags in order |
| `ReadConfig.ConfigShowsViews` | internal/server/systemcfg/wireless.go:65-183 | the hard half: the emitted text determines the number of vaps, their radios and every view, although values are free text and rows are optional |
| `ReadVap.AaaShows` | internal/server/systemcfg/wireless.go:214-489 | one vap's aaa rows determine its security view, the RADIUS slots included |
| `DriftHash.DeviceIff` | internal/wireless/plan.go:229-268 | one device renders two envelopes alike exactly when their band lists agree on every band it provisions |
| `DriftHash.FullDeviceIff` | internal/wireless/plan.go:229-268 | a device with both bands and dynamic authorization renders them alike exactly when their visible forms agree |
| `DriftHash.EveryDeviceIff` | internal/wireless/plan.go:295-318 | two envelopes render alike on every device exactly when their visible forms, the two band lists of views, are equal |
| `Printed.TextIsRows` | internal/configtext/configtext.go:20-31 | the rendered wireless text is byte-identical exactly when the rows are equal |
| `Printed.TextDetermines` | internal/configtext/configtext.go:20-31 | text made of lines with plain keys and one-line values splits into them in one way only |
| `Printed.CfgClean` | internal/server/systemcfg/wireless.go:65-183 | every line of every rendered config has a key without equals sign and a value without line break |
| `Printed.EveryTextIff` | internal/wireless/plan.go:295-318 | two envelopes give byte-identical text on every device exactly when their visible forms agree |
| `DriftHash.EqualHashesRenderEqually` | internal/wireless/plan.go:409-491 | on every device, envelopes with equal drift hashes render to identical rows |
| `DriftHash.NormalHashIffRows` | internal/wireless/plan.go:409-491 | between envelopes in normal form, on a device with dynamic authorization and a provisionable radio, rows are equal exactly when hashes are |
| `Visible.PlanViews` | internal/wireless/plan.go:229-268 | the views of the planned vaps are those of the band lists, radio by radio |
| `DriftHash.CanonDecidesView` | internal/wireless/plan.go:430-485 | what the hash keeps of one WLAN fixes its view and its bands |
| `DriftHash.ViewDecidesCanon` | internal/wireless/plan.go:430-485 | in normal form the view fixes what the hash keeps |
| `Visible.AaaAlike` | internal/server/systemcfg/wireless.go:214-489 | vaps with equal views have equal aaa rows on a device |
| `Residuals.SpuriousIff` | internal/wireless/plan.go:295-318 | the hash moves and no row on any device does exactly when visible forms agree and canonical lists differ |
| `Residuals.ResidualIff` | internal/wireless/plan.go:295-318 | the same for replacing one WLAN at any position of any envelope, decided by the two WLANs alone |
| `Residuals.PinnedFallback` | internal/wireless/plan.go:47-60 | persisting the fallback id renders alike and moves the hash |
| `Residuals.SpelledSsid` | internal/wireless/plan.go:409-430 | so does spelling out the SSID the name gives |
| `Residuals.OpenPassphrase` | internal/server/systemcfg/wireless.go:214-489 | and an open WLAN's passphrase |
| `Residuals.InertProfile` | internal/wireless/plan.go:430-485 | and every hashed change of the RADIUS profile outside wpa-eap |
| `Residuals.SecretWithoutServers` | internal/server/systemcfg/wireless.go:382-397 | and, inside it, a secret without addressed servers |
| `Residuals.IdleAccounting` | internal/server/systemcfg/wireless.go:411-474 | and accounting with no addressed server, interim updates or das |
| `Residuals.UnusedServer` | internal/server/systemcfg/wireless.go:382-397 | and a server beyond the fourth or without address at the end |
| `Residuals.DisabledEdit` | internal/wireless/plan.go:245-248 | and any hashed edit of a WLAN that stays disabled |
| `Residuals.UnknownBand` | internal/wireless/plan.go:229-268 | and an unknown band in place of both |
| `Residuals.FoldedTag` | internal/wireless/plan.go:229-268 | and a VLAN that folds to the same tag |
| `Residuals.DefaultPassphrase` | internal/server/systemcfg/wireless.go:214-489 | and spelling out the default passphrase |
| `Residuals.UnknownSecurity` | internal/server/systemcfg/wireless.go:214-489 | and an unknown security mode in place of wpa-p |
| `Residuals.UnknownVlanMode` | internal/wireless/plan.go:430-440 | and an unknown VLAN mode in place of an untagged one |
| `Residuals.SpelledVlanMode` | internal/wireless/plan.go:430-440 | and the mode disabled spelled out in a profile that says nothing else |
| `Residuals.PortWithoutAddress` | internal/server/systemcfg/wireless.go:382-397 | and the port of a slot without address |
| `Residuals.BrokenId` | internal/server/systemcfg/wireless.go:65-183 | and an id holding a line break in place of another such |
| `Residuals.BrokenPassphrase` | internal/server/systemcfg/wireless.go:214-489 | and such a passphrase |
| `Residuals.BrokenSsid` | internal/server/systemcfg/wireless.go:214-489 | and such an SSID |
| `Residuals.DisabledAreHashed` | internal/wireless/plan.go:245-248 | dropping the disabled WLANs changes no row anywhere and moves the hash as soon as there was one |
| `Residuals.SwappedBands` | internal/wireless/plan.go:229-268 | swapping a 2g-only WLAN with a 5g-only neighbour renders alike and moves the hash |
| `Residuals.Unplaced` | internal/wireless/plan.go:229-268 | a WLAN none of a device's radios takes changes no row of it and moves the hash |
| `Residuals.UnseenEdit` | internal/wireless/plan.go:295-318 | replacing a WLAN by one a device shows on the same bands in the same way changes no row of that device |
| `Residuals.Rename` | internal/wireless/plan.go:305-318 | the comment's first residual: a rename under a set SSID and id |
| `Residuals.InertDas` | internal/wireless/plan.go:300-305 | its second: a das flip on a device without the capability changes no row and moves the hash exactly when accounting is on |
| `Emitter.Renderer.EmitWirelessCfg` | internal/server/systemcfg/wireless.go:65-183 | the emitter appends exactly the rows of `Render.WirelessCfg`, the no-radio variant included |
| `Emitter.Renderer.EmitVaps` | internal/server/systemcfg/wireless.go:166-178 | aaa and wireless rows share one counter; the dad flag is set by the first dynamic-authorization vap and stays set |
| `Emitter.Renderer.AaaRows` | internal/server/systemcfg/wireless.go:214-489 | the branches on security and RADIUS profile yield the aaa rows for the flag as it was before the vap |
| `Emitter.Renderer.AccountingRows` | internal/server/systemcfg/wireless.go:411-474 | accounting, das and interim rows, the once-per-render pair only while the flag is unset |
| `Emitter.AuthRows` | internal/server/systemcfg/wireless.go:382-397 | array position is the slot, an empty address leaves its slot out, a fifth server has none |
| `Emitter.AcctRows` | internal/server/systemcfg/wireless.go:438-463 | the same for accounting, the das client pair once, at the first server with an address |
| `Emitter.CollectVids` | internal/server/systemcfg/wireless.go:622-633 | tags come out sorted and distinct, each with the devnames wired to it in plan order |
| `Emitter.VlanRows` | internal/server/systemcfg/wireless.go:635-649 | one running number over tags and ports |
| `Emitter.Bridges` | internal/server/systemcfg/wireless.go:651-680 | br0 with ports and untagged vaps, then one bridge per tag with sub-interfaces and its vaps |
| `Emitter.NetconfRows` | internal/server/systemcfg/wireless.go:720-775 | management, ports, radios and tags under one running number |
| `Emitter.CompanionRows` | internal/server/systemcfg/wireless.go:151-163 | the first vap of a radio is plain, later ones are virtual.1, virtual.2 and so on |
| `Wiring.BridgesOfTags` | internal/server/systemcfg/wireless.go:651-680 | in the rendered rows untagged traffic and every tag of a vap have exactly one bridge, and its ports are exactly the wired ports, as sub-interfaces of the tag, and the vaps of that tag |
| `Wiring.NoStrayBridge` | internal/server/systemcfg/wireless.go:651-680 | every bridge with a port is one of those |
| `Wiring.VapOnItsBridge` | internal/server/systemcfg/wireless.go:651-680 | every vap is on exactly one bridge, the one of its tag, whenever devnames are distinct and no wired port is called like one |
| `Wiring.OnePort` | internal/server/systemcfg/wireless.go:656-663 | and it is one port of it, not two |
| `Wiring.PlansApart` | internal/wireless/plan.go:229-268 | rendered plans have distinct devnames |
| `Wiring.PortsAreTagged` | internal/server/systemcfg/wireless.go:635-649 | each tag of a vap is put on each wired port by exactly one row pair |
| `Wiring.NoStrayTag` | internal/server/systemcfg/wireless.go:635-649 | and no row pair tags anything else |
| `Wiring.VlanSwitch` | internal/server/systemcfg/wireless.go:636-649 | VLANs are switched on exactly when some vap is tagged |
| `Wiring.TagIsUp` | internal/server/systemcfg/wireless.go:720-775 | the bridge of every tag is brought up |
| `Wiring.PortIsUp` | internal/server/systemcfg/wireless.go:720-775 | so is every wired port |
| `Wiring.ManagementUp` | internal/server/systemcfg/wireless.go:720-735 | the management interface is brought up and asks DHCP |
| `Wiring.NoRadios` | internal/server/systemcfg/wireless.go:65-90 | a device without radios is told that its radio is off and gets no row of any vap, bridge or VLAN |
| `OnAir.VapOnAir` | internal/server/systemcfg/wireless.go:214-598 | the rows of every vap name the bridge of its tag, its devname, its SSID, its WLAN id and its radio |
| `OnAir.VapSecured` | internal/server/systemcfg/wireless.go:261-380 | a secured vap asks for the WLAN's passphrase or the default one, under the key management its security mode means |
| `OnAir.VapOpen` | internal/server/systemcfg/wireless.go:233-260 | an open vap is started by the device itself exactly when the device reports that it can |
| `OnAir.VapProtected` | internal/server/systemcfg/wireless.go:214-232 | management frame protection is required under WPA3, offered in transition mode and off otherwise |
| `OnAir.VapAsksServer` | internal/server/systemcfg/wireless.go:382-397 | each of the first four authentication servers with an address is in the slot of its position, with its port or 1812 |
| `OnAir.VapReportsTo` | internal/server/systemcfg/wireless.go:438-463 | with accounting on so is each accounting server, with its port or 1813 |
| `OnAir.VapTakesVlan` | internal/server/systemcfg/wireless.go:500-513 | what a wpa-eap vap does with the VLAN the server hands back |
| `OnAir.VapHearsDas` | internal/server/systemcfg/wireless.go:411-437 | a capable device whose profile wants dynamic authorization listens on a port of the vap's own |
| `OnAir.VapObeys` | internal/server/systemcfg/wireless.go:438-463 | and takes orders from every addressed accounting server under the profile's secret, the first of them named as its client |
| `OnAir.VapRepeatsAccounting` | internal/server/systemcfg/wireless.go:464-474 | interim updates are on every hour when the profile wants them |
| `OnAir.VapOnItsRadio` | internal/server/systemcfg/wireless.go:151-163 | every vap is started on its radio, plainly when first there, else as virtual number k, k vaps coming before it |
| `OnAir.RadioTuned` | internal/server/systemcfg/wireless.go:90-150 | a radio's channel and power are what the controller asks for, else what the device reports |
| `Sessions.SessionRecord.Refresh` | internal/store/sessions.go:202-280 | one table leaves the refreshed rows within the cap, reports every client's transition once in MAC order, and arms the event exactly when someone left |
| `Sessions.ReportTells` | internal/store/sessions.go:195-280 | a report holds exactly the transitions stored rows and table tell, with both ends: a start for whom no connected row was stored, an end for whom no station is present, a retune for whom a known radio or channel differs |
| `Sessions.RetunedAreReported` | internal/store/sessions.go:250-251 | a radio change is reported for exactly the connected clients whose first station tells a radio or channel other than the stored one |
| `Sessions.Sight` | internal/store/sessions.go:203-254 | the loop over stations: first row of a client wins, unparseable rows are skipped |
| `Sessions.Depart` | internal/store/sessions.go:255-264 | the loop over stored rows, in any order: connected and absent means gone |
| `Sessions.EnforceRowCap` | internal/store/sessions.go:298-317 | keeps min(size, 2048) rows unchanged, every evicted one older (MAC breaking ties) than every kept one |
| `Sessions.CapIsUnique` | internal/store/sessions.go:298-317 | that determines the surviving rows |
| `Sessions.ConnectedIffPresent` | internal/store/sessions.go:202-280 | before eviction a row is connected exactly when its client is in the table |
| `Sessions.ReportedMacs` | internal/store/sessions.go:202-280 | connects are the table minus the connected, disconnects the connected minus the table, radio changes lie in both |
| `Sessions.SessionConservation` | internal/store/sessions.go:202-280 | connected after = connected before + connects - disconnects, counted in the report |
| `Sessions.NoConnectedRowEvicted` | internal/store/sessions.go:298-317 | with the clock past every stored proof and a table within the cap, no connected row is evicted |
| `Sessions.RowIsLastAssociation` | internal/store/sessions.go:202-280 | over any list of tables a row tells its client's last uninterrupted association: begun at since, last proven at lastSeen, lasting exactly when connected, context the latest reported within it |
| `Tracker.ClientTracker.Seed` | internal/clientevents/tracker.go:88-103 | the freshest connected row of every client becomes its presence, without events |
| `Tracker.ClientTracker.Observe` | internal/clientevents/tracker.go:107-123 | a batch is handled transition by transition |
| `Tracker.ClientTracker.Connect` | internal/clientevents/tracker.go:125-151 | reconnect, roam from a held disconnect, refresh, roam or first connect |
| `Tracker.ClientTracker.Disconnect` | internal/clientevents/tracker.go:153-168 | accepted only where the client is and once; stale reports change nothing |
| `Tracker.ClientTracker.RadioChanged` | internal/clientevents/tracker.go:170-190 | reported only where the client is and no disconnect is held |
| `Tracker.ClientTracker.Flush` | internal/clientevents/tracker.go:193-217 | releases exactly the elapsed disconnects, by time then MAC |
| `Grace.GraceWindow` | internal/clientevents/tracker.go:125-217 | a departure observed at a clock, through any calls that neither see the client connect nor flush before clock plus grace, tells nothing; then a flush tells it from exactly that moment on, another access point makes it one roam, and the same one a disconnect and a connect |
| `Grace.NeverEarly` | internal/clientevents/tracker.go:193-217 | in every run from a tracker that holds nothing, a flush tells a disconnect only of a departure observed at least the grace window earlier and not taken back since, at that access point and time |
| `Grace.FlushInOrder` | internal/clientevents/tracker.go:193-217 | over all clients a flush tells one disconnect of every client it releases and nothing else, in the order of their times, the smaller MAC first |
| `Grace.Arrival` | internal/clientevents/tracker.go:125-151 | a client of whom no departure is held joins, roams, or is where it was, and its event carries both ends |
| `Grace.Retune` | internal/clientevents/tracker.go:170-190 | a retune is told exactly where the client is and no departure is held, with both channels and radios |
| `Grace.ObserveOne` | internal/clientevents/tracker.go:107-123 | one observed transition is one call of such a run |
| `Grace.FlushNow` | internal/clientevents/tracker.go:193-217 | one flush is one call of such a run |
| `TrackerLog.LogReplaysToCurrent` | internal/clientevents/tracker.go:88-217 | from any seed, through any interleaving, the emitted log replays legally through an away-or-at-AP machine to exactly the index, and a held disconnect is at the client's current AP |
| `TrackerLog.DisconnectsConserved` | internal/clientevents/tracker.go:125-217 | per client: accepted disconnects = disconnect events + roams from a held disconnect + still held |
| `TrackerLog.RunTimely` | internal/clientevents/tracker.go:125-217 | with nondecreasing observation times each client's events leave in time order, a held one after all of them |
| `History.FileSink.Emit` | internal/clientevents/filesink.go:136-165 | inserts behind every event not younger, bounds the list, appends to the file; keeps memory and file in agreement on the youngest events up to the cap, and equal as a whole as long as nothing was cut |
| `History.FileSink.Place` | internal/clientevents/filesink.go:147-150 | the swap loop is insertion by time |
| `History.FileSink.Compact` | internal/clientevents/filesink.go:186-226 | what compaction keeps is also what pruning the reloaded file would keep |
| `History.FileSink.constructor` | internal/clientevents/filesink.go:79-100 | opening a file leaves the pruned stable sort of its readable lines, in memory and on disk |
| `History.EmitKeeps` | internal/clientevents/filesink.go:136-155 | one emit keeps that agreement, cut or not |
| `History.NewestOfInsert` | internal/clientevents/filesink.go:147-155 | the youngest n events after an insertion depend only on the youngest n before it |
| `History.FileSink.Prune` | internal/clientevents/filesink.go:177-184 | what remains is the longest suffix within retention and the cap |
| `History.Query` | internal/clientevents/filesink.go:310-325 | the newest matching events, cut at the limit |
| `History.NewestFirstMeaning` | internal/clientevents/filesink.go:290-325 | youngest first, and exactly the matching ones |
| `Stretches.QueryPicks` | internal/clientevents/filesink.go:290-325 | a query picks exactly the stored events that fit every set field of its filter, each once, the last stored first |
| `History.SinkOldestFirst` | internal/clientevents/filesink.go:136-150 | an untrimmed sink is sorted by time and holds exactly what was emitted |
| `History.SinkKeepsClientOrder` | internal/clientevents/filesink.go:136-150 | sorting never reorders a client whose events left in time order |
| `History.RestartIsCompaction` | internal/clientevents/filesink.go:79-131 | at any moment of any run, trimmed or not, restarting from the file and compacting in place leave the same events |
| `History.StableSortIsSink` | internal/clientevents/filesink.go:128-130 | stably re-sorting the file, which is in emission order, gives exactly the untrimmed list in memory |
| `History.StableSortUnique` | internal/clientevents/filesink.go:128-130 | a stable sort by time has one possible result |
| `History.FoldHistory` | internal/clientevents/filesink.go:364-394 | the loop with its open index computes the fold |
| `History.ClientHistory` | internal/clientevents/filesink.go:347-358 | one client's events, folded |
| `Stretches.FoldIsStretches` | internal/clientevents/filesink.go:364-394 | for any events: one stretch for every connect and roam, in order, at its access point, from its time to the next event that is no radio change, on the last channel told for that access point meanwhile |
| `History.FoldMatchesReplay` | internal/clientevents/filesink.go:364-394 | folding a legal chronological log gives ordered non-overlapping stretches, the last open exactly when the machine has the client at that AP |
| `History.HistoryAgreesWithTracker` | internal/clientevents/filesink.go:347-394 | end to end: a client's history has an ongoing stretch exactly when the tracker holds the client, on that AP |
| `Pipeline.PlacedIffToldLast` | internal/clientevents/tracker.go:107-217 | in every run from a seeded start, over any number of access points, observed in any order and with any reports still waiting: the tracker places a client at an access point unheld exactly when the last connect observed of it was there and nothing observed later from there took it back |
| `Pipeline.RowIsLastCommitted` | internal/store/sessions.go:202-280 | a row is connected exactly when the last connection report committed about it was a connect |
| `Pipeline.DrainedAgreeIff` | internal/server/server.go:679-686 | with no report of that access point waiting, tracker and row agree exactly when the last report observed there about the client and the last one committed are of one kind |
| `Pipeline.SeedStarts` | internal/clientevents/tracker.go:88-103 | seeding from the stored rows is such a start |
| `Pipeline.PlacedIffConnectedLast` | internal/server/server.go:630-686 | where each access point's reports are observed in order: once none of its reports waits, the tracker places a client there unheld exactly when its row there is connected and the last connect observed of it was there |
| `Pipeline.RunInStep` | internal/server/server.go:630-686 | at every moment of such a run, rows are what observed and waiting reports say together, and the tracker follows what it was told |
| `Pipeline.PlacedMeansConnected` | internal/clientevents/tracker.go:107-217 | then a client placed without a held disconnect has a connected session row there |
| `Pipeline.OneApAgreesBothWays` | internal/store/sessions.go:202-280 | if only one access point is observed, in order and with none of its reports waiting, connected rows and such clients coincide |
| `Pipeline.OlderApKeepsRow` | internal/clientevents/tracker.go:125-151 | with two, a run after which the first still has the client's connected row while the tracker has it at the second |
| `Pipeline.OvertakenReportsDisagree` | internal/server/server.go:679-686 | observed out of commit order, two informs of one access point leave the tracker placing a client whose row is disconnected |
| `Pipeline.ClockKeepsClients` | internal/store/sessions.go:298-317 | a table within the cap and a clock past every stored proof keep every client of the table, which is all these runs ask of the cap |
| `TrustPolicy.RecordRows.Absorb` | internal/store/trustpolicy.go:225-258 | the three passes over the ownership classes leave, for every key, the row its class prescribes |
| `TrustPolicy.AbsorbedUnique` | internal/store/trustpolicy.go:225-258 | that leaves no freedom: record and body determine the whole map |
| `TrustPolicy.AdminRowsOutliveBodies` | internal/store/trustpolicy.go:248-254 | no sequence of bodies writes, wipes or introduces an admin-owned row |
| `TrustPolicy.ControllerRowsStickToTheFirst` | internal/store/trustpolicy.go:236-240 | a controller-owned row is the record's, or the first one any body carried |
| `TrustPolicy.CapsFollowTheLast` | internal/store/trustpolicy.go:241-247 | a device capability is as the last body that reported it left it |
| `TrustPolicy.ControllerRowsUntouchedIff` | internal/store/trustpolicy.go:236-240 | a body leaves the controller-owned rows alone exactly when it carries none the record lacks |
| `TrustPolicy.SweepIsControllerOwnedPlusWatchdog` | internal/store/trustpolicy.go:194-207 | a reset sweeps the controller-owned rows and, of the admin's, only the two watchdog rows |
| `TrustPolicy.RecordRows.Sweep` | internal/server/adoption/engine.go:436-452 | the deleting loop removes exactly the swept keys |
| `Projection.AbsorptionsAgree` | internal/store/trustpolicy.go:225-258 | for any raw body with the same tables, the raw map after the three passes shows the engine's absorbed record exactly when the body carries no typed controller-owned row the record lacks |
| `Projection.SweepsAgree` | internal/server/adoption/engine.go:436-452 | deleting the swept keys from the raw map leaves what the engine's swept record says |
| `Projection.Intake` | internal/server/server.go:635-637 | absorbing and refreshing the sessions arms the record's event exactly when a connected client left the table |
| `Store.StepKeeps` | internal/store/store.go:390-413 | every atomic action of every thread keeps exclusion per MAC and per save, and memory and disk equal to prefixes of one commit list |
| `Store.NoLostUpdate` | internal/store/store.go:390-413 | every committed cycle read what the previous committed cycle for its MAC left |
| `Store.DiskNeverGoesBackwards` | internal/store/store.go:635-695 | the commits on disk only grow, along one list |
| `Store.DiskIsAPrefix` | internal/store/store.go:635-695 | the file is always the memory image after some prefix of the commits |
| `Store.ReturnImpliesDurable` | internal/store/store.go:615-630 | once an update returned successfully, the disk holds it or a later state, from then on |
| `Packet.ParseSerialized` | internal/inform/inform.go:106-161 | parsing a serialized packet within the size limit gives it back |
| `Packet.SerializeParsed` | internal/inform/inform.go:106-149 | serializing an accepted body gives its header and declared payload, without trailing bytes |
| `Packet.PutHeader` | internal/inform/inform.go:153-161 | fills the 40 header bytes of a buffer and nothing beyond them |
| `Packet.AcceptedIff` | internal/inform/inform.go:106-140 | byte by byte: accepted are exactly bodies of 40 bytes to 10 MiB with the magic, data version 1 and a declared length that fits, and the packet is version, MAC, flags, IV and payload at their offsets, numbers big-endian |
| `Packet.RefusedBecause` | internal/inform/inform.go:106-140 | what each refusal says about the bytes, the checks in order |
| `Packet.SentCarries` | internal/inform/inform.go:142-161 | what is sent has each header field at its offset, numbers big-endian, then the payload and nothing more |
| `Packet.Pkcs7Unpad` | internal/inform/crypto_cbc.go:69-83 | the checks and loop accept exactly valid padding |
| `Packet.UnpadPadded` | internal/inform/crypto_cbc.go:57-83 | unpadding undoes padding, and padded data is whole blocks (section 10.3 of RFC 2315) |
| `Packet.UnpadOnlyPadded` | internal/inform/crypto_cbc.go:57-83 | only padded data unpads |
| `Packet.TrimPad` | internal/inform/crypto_cbc.go:88-93 | removes exactly the trailing NUL bytes |
| `Packet.ResponseRoundTrip` | internal/inform/codec.go:109-127 | parsing and decrypting a response with the same key gives the plaintext on both lanes; the header authenticated before sealing is the header parsed |
| `Packet.Decode` | internal/inform/codec.go:55-89 | the first candidate key that opens to a JSON object wins and is reported, none for a clear packet; a malformed object outranks the last decryption error |
| `Note.PrinterAndParserAgree` | internal/app/setinform.go:97-150 | for every announcement, parsing its printed note applies exactly when the factory mark is present and true or the announced SSH port is above 65535; in the latter case the error carries that number and no address is set, otherwise the target is the announced address and port, whatever the device put in its strings |
| `Note.AddressVerbatim` | internal/server/discovery.go:458-492 | the parse returns the announced address and port, 22 when unset, without error exactly for a true mark, a non-empty comma-free address and a port up to 65535 |
| `Note.ScanSeesTheParts` | internal/app/setinform.go:106-142 | no value can introduce a part: the parser sees exactly the printed parts |
| `Note.PrintNote` | internal/server/discovery.go:458-492 | appending part by part prints the note |
| `Note.ParseNote` | internal/app/setinform.go:97-150 | the consuming loop computes target, verdict and error |
| `SshBlob.WalkWireBlob` | internal/server/systemcfg/sshkey.go:91-120 | accepts exactly the blobs that are two or more length-prefixed fields with the given type first (section 6.6 of RFC 4253), within bounds on every input |
| `SshBlob.WellFormedIsCut` | internal/server/systemcfg/sshkey.go:91-120 | well formed are exactly the blobs that offsets cut into pieces each led by its own big-endian length, the first being the type name |
| `SshBlob.FieldsInjective` | internal/server/systemcfg/sshkey.go:91-120 | a blob splits into fields in one way only |

## Left out

- BoundedDelivery.DeliveryIsBounded: speaks of encrypted informs only; the plaintext lane offers again on every matching claim, and attempts of one hash keep counting across settles, so there is no global bound.
- KeySafety.NeverStranded: encrypted exchanges under the device's own key, admin saves and sweeps; plaintext informs and record deletion are not part of these runs.
- History.HistoryAgreesWithTracker: without seeding and without trimming; a seeded client has no opening event and a trimmed sink may have lost one.
- Recovery.SettlesAgainIff: a device on its assigned key; `KeySafety` covers the others.
- History.FileSink.Emit: file write failures, which are logged and leave memory ahead of the file.
- Pipeline.PlacedIffToldLast: rows of deleted devices stay, and eviction may drop absent clients only.
- Sessions.RowIsLastAssociation: rows that were never evicted.
- Adapter.RunInformCycle: the reply map, response sealing and the noop target bookkeeping of the same function.
- Packet.ResponseRoundTrip: AES-CBC and AES-GCM are functions with the round-trip property stated by `Packet.Sound`; zlib inflation and hex decoding of keys are not modelled.
- Store.NoLostUpdate: Update and UpdateExisting only; Delete prunes the lock entry and bare Put bypasses it, and neither is part of this model.
- Plan.ReadVapEvidence: numbers of a reported row are kept in the decimal form they print as.
- Watching.TwoGapsArm: reports under the assigned key and version of a settled record with nothing armed, blocked or pending; other reports are covered by `WatchdogRuns`.
- OnAir.VapOnAir: that its rows are present, not that no second row has the same key.
- Noop intervals and targets (`noopFor`), the management text other than its key row and version, SSH credential deltas and their caches.
- Renderer warnings and alerts; the port inventory, management device name and radio intents enter `Render.Facts` as values.
- Reading and writing session rows and bodies as JSON; numbers beyond 2^53.
- HTTP routing, authentication, telemetry, UDP and SSH transport, file system calls, locks as operating-system objects, field validators, LED parsing, the web console.
- Event messages, dates and AP display names; client MACs stay canonical in events, their colon form being one-to-one (`Text.ColonMacInjective`).
- SSIDs containing a NUL character: a placement key is a pair here, a joined string in the source.
- Radios with equal names keep their reported order; the order is unspecified in the source.
