# fngo: a verified model of the client's stateful core

fngo is a Go client for a game's party service: it keeps a local copy of the party up to date
from XMPP notifications, and changes the party's metadata with revision-checked patches. This
project models the parts of it whose correctness depends on state, order and other parties,
and proves what they promise. `dafny verify dfyconfig.toml` checks everything.

## How it is laid out

| file | models |
|---|---|
| `GoStrings`, `Json` | the parts of Go's string and JSON packages that are used; a metadata string is opaque text or one of the spellings of a tree |
| `MetaCodec` | `party/meta_codec.go`, pure |
| `Merge` | what the nested-map library computes, on trees |
| `NestedMaps`, `Templates`, `JsonValues` | the nested-map library on heap objects, with a pure shape as footprint |
| `PartyTypes`, `PatchPlan` | an intent as one goal per metadata key, and the updates that achieve it |
| `PatchBuilder` | the step-by-step builder on mutable maps, proved to give the plan's updates |
| `PatchProtocol` | the retry loop as a state machine against a service with other writers; no lost update |
| `PatchKeeps`, `PatchConflicts`, `PatchSuccess`, `PatchTraffic`, `PatchProgress` | what its patches keep, what stale answers cost, what success means, how often it writes and asks, that it ends and why |
| `IntentFields` | which part of an intent is found under which path of the metadata, and what is extracted from it |
| `Rejoin` | what the numbering of members who leave and rejoin is worth |
| `Commands` | the retry loop itself: for whatever happens around it, its execution is that machine's run |
| `Reducer`, `Decoder`, `NotificationEffects` | the local party, the notifications and the fetched party; what each of them makes of it, field by field |
| `Readback`, `NotificationLink`, `IntentCost` | results across components |
| `BusModel`, `BusEffects`, `EventBus` | the event bus: interleavings of atomic steps, what each step brings about for good, and the class that takes them |
| `XmppModel`, `XmppShutdown`, `XmppClient` | the supervisor, its loops and callers: interleavings, how they start, stop and go on, and the class that takes them |
| `Backoff`, `HttpRetry`, `HttpOutcome` | retry arithmetic, the HTTP retry loop, what it comes to |
| `Scheduler`, `SchedulerProgress` | the token scheduler: what governs its acts, and that it goes on |

Where the source changes state step by step, a class or a loop is proved against a pure
specification, and the theorems are about that specification. Where goroutines or other
writers interfere, the specification is a state machine of atomic steps, and the theorems hold
for every sequence of steps. The patch loop and the supervisor are given everything that happens
around them as one sequence of such steps, and are proved to follow it.

Assumptions about the party service (`PatchProtocol`): a patch is accepted exactly when the
revision it names is current; an accepted patch or a foreign change moves the revision it
checks; a party patch does not move member revisions; a member who leaves and rejoins goes on
counting revisions; a patch for another party is refused.

`Rejoin` says what becomes of this if a rejoined member is numbered from 0 instead.

Of the local party nothing is assumed, neither at the start of a call nor while it runs: a
notification may change it at any moment and in whatever way, and leave it with a revision that
its metadata does not belong to. An attempt's snapshot is as fetched (`trusted` in its log
entries) if no notification came between the fetch and the head of the attempt. What holds of
patches from such snapshots and of all patches is kept apart: `PatchProtocol.NoLostUpdate` and
`PatchTraffic.PartyPatchesBounded` are about the former, `PatchProtocol.BuiltFromCurrentIff` is
the exact condition for all of them, and `PatchTraffic.DoubtfulPatches` bounds the latter.

## Where the code does less than it seems to

* A blank string under a `_j` key is read as an empty object once and as the string `{}` ever after (`MetaCodec.CanonicalizeKeepsValue`).
* A notification moves the local revision without the metadata that belongs to it, so a stale party can pass the revision check and another writer's field be written over (`NotificationLink.AcceptedIff`, `NotificationLink.StalePartyAccepted`, `NotificationLink.ForeignFieldOverwritten`).
* Replacing the party between the decoder's snapshot and its event can leave a member's readiness out of step (`Decoder.ReadyAfterRace`, `Decoder.ReadinessLost`).
* A playlist that was set is not shown while the island still carries another `LinkId` (`Readback.PlaylistShows`, `Readback.PlaylistHidden`).
* The doubling can overflow for caps from 2^62 on, with a negative delay as the result (`Backoff.ExactIff`); a very long Retry-After wraps (`HttpRetry.RetryAfterHonoured`).
* The supervisor's branch for a connection that ends without an error is dead, so its failures are never forgotten and a budget is used up by all failures since the start, not by consecutive ones (`XmppModel.FailuresNeverReset`, `XmppModel.NumberIsConsecutiveIff`, `XmppModel.BudgetSpentBetweenConnections`).
* The scheduler sends the token it finds after its wait, which may have just been replaced and be sent long before it calls for it (`Scheduler.SentEarlyIff`, `Scheduler.FreshTokenRefreshedEarly`).
* Writing a value that contains the map in which the write creates a missing one writes more than the value (`Templates.PathSet`, `Templates.SetIntoItself`).
* The return after the retry loop is never reached (`Commands.PartyCommands.ApplyIntentWithRetry`), nor are the branches of `WaitFor` for a closed channel on an open bus (`BusModel.WaiterContract`).

## Model

| member | source | states |
|---|---|---|
| GoStrings.PrintParse | party/meta_codec.go:147-151 | Every 64-bit integer survives being printed and parsed, and its printed form has no white space to trim. |
| GoStrings.SplitJoin | party/templates/templates.go:215-224 | Splitting undoes joining for parts that do not contain the separator. |
| MetaCodec.CanonicalizeIdempotent | party/meta_codec.go:80-154 | Decode-then-serialize is a normal form: doing it twice gives the string that doing it once gives, for every key and every string, whatever the suffix. |
| MetaCodec.CanonicalizeKeepsValue | party/meta_codec.go:123-154 | The decoded value survives canonicalisation if and only if the string is not a blank one under a `_j` key; there the first pass reads an empty object and the second the string `{}`. |
| MetaCodec.ObjectRoundTrip | party/meta_codec.go:80-135 | A non-empty object written under a `_j` key reads back as that object. |
| MetaCodec.ReadsObjects | party/meta_codec.go:123-135 | Under `_j` a non-empty JSON object in any spelling is read as that object, a blank string as the empty object, any other string as itself. |
| MetaCodec.ReadsTruth | party/meta_codec.go:136-146 | Under `_b` the two words are read as truth values in any case and with white space around them and written in lower case; another word is read as itself. |
| MetaCodec.ReadsNumbers | party/meta_codec.go:147-151 | Under `_U` a 64-bit integer with white space around it is read as that number and written without the white space. |
| MetaCodec.ReadsStrings | party/meta_codec.go:123-154 | Under any other key a value is the string it is. |
| Merge.MergeTwice | party/templates/templates.go:44-67 | Merging the same source twice equals merging it once. |
| Merge.MergeSelf | party/templates/templates.go:44-67 | Merging a tree into itself changes nothing. |
| Merge.MergeReads | party/templates/templates.go:44-67 | The source wins: wherever it holds something other than an object the merge reads as the source, and no path of the source is lost. |
| Merge.MergeIntoEmpty | party/patch_builder.go:234-242 | Merging into an empty map is a copy. |
| Merge.TreeSetFails | party/templates/templates.go:111-128 | A write at a path is impossible if and only if a proper prefix of the path holds something other than an object. |
| Merge.GetAfterSet | party/templates/templates.go:69-133 | After a successful write, reading the path gives the value written, and reading below the path reads below that value. |
| Merge.GetElsewhere | party/templates/templates.go:101-133 | Every path that diverges from the written one reads as before. |
| NestedMaps.AddEntry | party/templates/templates.go:116-130 | Storing an entry in a map deep inside a tree of maps changes the whole tree at that place only and keeps it free of sharing. |
| NestedMaps.GrowExtends | party/templates/templates.go:116-117 | When a new key is stored in a map that a value contains, the value's tree changes, and extends what it was. |
| Templates.DeepCopyValue | party/templates/templates.go:198-207 | A copy stands for the same tree and consists of new maps only, no two entries sharing one; the original is untouched. |
| Templates.DeepCopyMap | party/templates/templates.go:172-183 | A copied map stands for the same tree and consists of new maps only, whatever the iteration order. |
| Templates.CopyInto | party/templates/templates.go:50-54 | Storing a deep copy under a key shares nothing with the value copied. |
| Templates.MergeKey | party/templates/templates.go:49-64 | One turn of the merge loop leaves the merge of that key in place and the source as it was. |
| Templates.DeepMerge | party/templates/templates.go:44-67 | In place on the heap, for any iteration order and for a source that shares no map with the destination: the destination becomes the recursive right-biased merge of the two trees, a nil destination a new map; the source is unchanged, and the result has only the destination's own maps and new ones, so it shares none with the source. |
| Templates.SplitPath | party/templates/templates.go:209-227 | The parts are the trimmed pieces between dots; a blank piece anywhere makes the whole path invalid. |
| Templates.PathPartsJoin | party/templates/templates.go:209-227 | A path made by joining non-blank trimmed parts without dots splits into those parts. |
| Templates.PathGet | party/templates/templates.go:69-99 | Finds a value if and only if the path is valid and leads somewhere in the tree, and then the value there; the value is a part of the tree, not a copy. |
| Templates.PathSet | party/templates/templates.go:101-133 | All or nothing: it succeeds if and only if the path is valid and the write is possible on the tree; a failed call leaves the very same maps with the same contents although maps are created on the way. A successful call performs the tree write of the value if and only if the value does not contain the map in which the first missing map on the way is created, whatever else it shares with the tree; if it shares nothing, it always does, and the result shares nothing with it. |
| Templates.SetIntoItself | party/templates/templates.go:101-133 | An instance: an empty map written into itself at a path of two keys is not what a write of the empty map gives. |
| Templates.CreateMap | party/templates/templates.go:112-119 | Creating a missing map on the way does not change what the whole write will do to the tree, and says what becomes of a value that contains the map it is created in. |
| Templates.WrittenIff | party/templates/templates.go:130-132 | Writing the value as it has become equals writing it as it was if and only if it has not changed. |
| Templates.CreateKeepsSet | party/templates/templates.go:112-119 | Creating a missing map on the way does not change what the whole write will do. |
| JsonValues.Unmarshal | party/meta_codec.go:36-45 | Parsing builds a heap value of new, unshared maps that stands for the tree. |
| JsonValues.ReadTree | party/meta_codec.go:87-92 | Serializing sees the tree behind the heap value, and changes nothing. |
| PatchPlan.StartIsRead | party/patch_builder.go:41-49 | What an edit starts from is the object stored under the key, or the template's when the key is absent: the merge of template and metadata never mixes the two. |
| PatchPlan.AchieveSettles | party/patch_builder.go:54-191 | From any baseline, the value built for a goal serializes to a string that meets the goal when it is read again. |
| PatchPlan.SettledIsFixed | party/patch_builder.go:193-221 | Rebuilding a goal that is met already gives exactly the stored string, the text inside the outfit text included. |
| PatchPlan.UpdateIff | party/patch_builder.go:193-221 | A key is sent if and only if it is asked for and its stored string does not meet its goal; neither the template nor any other key has a say. |
| PatchPlan.NoUpdatesIff | party/patch_builder.go:193-221 | Nothing is sent if and only if every goal is met. |
| PatchPlan.PatchedSettles | party/patch_builder.go:36-227 | Applying the built updates to the metadata they were built from meets every goal. |
| PatchPlan.BuildIdempotent | party/patch_builder.go:36-227 | Building again with the same intent and time after applying the patch gives no updates, for every metadata, intent and template. |
| PatchPlan.QuietUnlessTouched | party/commands.go:600-634 | After an accepted patch the next attempt asks for nothing as long as the planned keys are as the patch left them, whatever other writers did to other keys. |
| PatchPlan.OnlyPlannedKeys | party/patch_builder.go:193-221 | A key the intent does not ask for is never sent, and keeps its value. |
| PatchPlan.EditKeepsPaths | party/patch_builder.go:59-143 | Inside an edited object every path that is not written keeps the value it had in the snapshot, or in the template when the key was absent, provided the edited field was an object or absent. |
| PatchPlan.SlotKeepsPaths | party/patch_builder.go:155-166 | The outfit edit keeps everything around the inner text, and inside that text everything but the written field. |
| PatchPlan.PlansWellKeyed | party/patch_builder.go:54-191 | Every goal that edits an object is on a key that is stored as an object, so the theorems above apply to every intent. |
| PatchPlan.StepsAchieve | party/patch_builder.go:54-191 | A sequence of edits, with later edits of one object adding to earlier ones, gives the same result as achieving each key's combined goal once from the baseline. |
| PatchPlan.PartyStepsPlan | party/patch_builder.go:54-112 | The party edits in the order of the code amount to the party plan of the intent. |
| PatchPlan.MemberStepsPlan | party/patch_builder.go:59-191 | The member edits in the order of the code amount to the member plan, in which the outfit wins over the loadout's character, a named emote over clearing, and clearing over the loadout's emote. |
| PatchBuilder.DecodeSchema | party/meta_codec.go:114-121 | Decoding gives a new map of new values that stands for the decoded metadata. |
| PatchBuilder.OpenObject | party/patch_builder.go:245-268 | The object under a key: the map stored there itself, or a new one parsed from its text, or an empty new one; the rest of the map stays apart from it. |
| PatchBuilder.EditObject | party/patch_builder.go:60-71 | Opening, editing and storing back a metadata object achieves its goal on the tree. |
| PatchBuilder.EditOutfitSlot | party/patch_builder.go:155-166 | Editing the object that is a JSON text inside an object achieves its goal on the tree. |
| PatchBuilder.Carry | party/patch_builder.go:54-191 | One edit adds one step to what has been done to the baseline and marks its key. |
| PatchBuilder.EditParty | party/patch_builder.go:54-112 | The party's edits are carried out in order on the mutable map, and exactly their keys are marked. |
| PatchBuilder.EditOutfitAndEmote | party/patch_builder.go:145-191 | After readiness, playlist and loadout, the outfit, clearing and named-emote edits complete the member's edits in the order of the code, and exactly their keys are marked. |
| PatchBuilder.CollectUpdates | party/patch_builder.go:193-221 | The updates are exactly the marked keys whose serialized value differs from the stored string. |
| PatchBuilder.CopyTemplate | party/patch_builder.go:229-243 | A new map with the template's strings, sharing nothing with the template. |
| PatchBuilder.MakeBaseline | party/patch_builder.go:41-49 | A new map with the template and the decoded metadata merged over it. |
| PatchBuilder.BuildParty | party/patch_builder.go:42-206 | One half of the build gives exactly the plan's updates, made of new maps. |
| PatchBuilder.Builder.ForIntents | party/patch_builder.go:28-34 | A new builder holds copies of the embedded templates that it shares with nobody. |
| PatchBuilder.Builder.BuildIntents | party/patch_builder.go:36-227 | Fails only without a snapshot. The updates are those of the plan, a function of templates, snapshot, intent and time only, so calls in a loop equal calls on a fresh builder; no map that existed before is changed, and the result has new maps only. |
| IntentFields.PartyReads | party/patch_builder.go:54-112 | After the patch, for every template, metadata and intent: the custom key trimmed, squad fill, region and the link of the island are found under their keys and paths, spelled out. |
| IntentFields.ReadyReads | party/patch_builder.go:59-74 | The readiness and the input type that goes with it are found at their paths. |
| IntentFields.IslandReads | party/patch_builder.go:76-95 | Both island entries name the playlist as it was spelled, in a JSON text of its own, with the time. |
| IntentFields.LoadoutReads | party/patch_builder.go:114-153 | Character, backpack and pickaxe of a loadout are each found at their own path; a field that is not given is as it was; an outfit overrides the character. |
| IntentFields.OutfitReads | party/patch_builder.go:145-171 | The outfit is also found inside the JSON text of the outfit object. |
| IntentFields.EmoteReads | party/patch_builder.go:131-191 | The emote and its section: a named emote wins over clearing, and clearing over the loadout's emote, which leaves the section as it was. |
| IntentFields.PartyFrame | party/patch_builder.go:193-206 | Every key of the party that the intent does not ask for keeps its value. |
| IntentFields.MemberFrame | party/patch_builder.go:208-221 | Every key of the member that the intent does not ask for keeps its value. |
| IntentFields.KeptField | party/patch_builder.go:41-191 | A field of an edited object that is not written reads as in the object the edit started from. |
| IntentFields.KeptFromWhere | party/patch_builder.go:41-49 | That object is the metadata's, or the template's where the metadata has none. |
| IntentFields.LoadoutIsRead | party/commands.go:1048-1062 | The four fields of an extracted loadout are what is found at their four paths, printed. |
| IntentFields.ReadyIsRead | party/commands.go:1038-1046 | Readiness is extracted from its path: ready if the text there says so, and not ready in every other case. |
| IntentFields.PlaylistIsRead | party/commands.go:1064-1081 | A playlist is extracted from the island's own link if it has one, and else from the mnemonic of the link it was given. |
| IntentFields.LoadoutReadsBack | party/commands.go:1048-1062 | A loadout with all its fields given is extracted as it was given, whatever the member wore before. |
| IntentFields.OutfitNamed | party/patch_builder.go:270-274 | An outfit's name is what is left without white space and without the prefix, wherever there is white space. |
| IntentFields.EmoteNamed | party/patch_builder.go:276-287 | An emote that is a path is kept, a bare name is expanded, and nothing is `None`, whatever white space is around it. |
| IntentFields.EmotePathTwice | party/patch_builder.go:276-287 | Expanding an emote twice is expanding it once if and only if there is something to expand: `None` would be taken for a name. |
| PatchProtocol.Monotone | party/commands.go:717-758 | Under the assumptions on the service, a revision that is current again was never left: same revision implies same metadata, for the party and for each member. |
| PatchProtocol.AcceptedIsCurrent | party/commands.go:606-619 | A party patch that the service accepts was built from the metadata the service holds, if its snapshot was fetched. |
| PatchProtocol.AcceptedMemberIsCurrent | party/commands.go:621-634 | The same for a member patch, although a party patch has been accepted in between. |
| Rejoin.AcceptedIff | party/commands.go:740-748 | On a service that numbers a rejoined member from 0: a member patch from a fetched party is accepted, any changes later, if and only if the account is there and either never left and was not changed, or rejoined and was changed since as often as the old revision says; only then can it have been built from other metadata. |
| Rejoin.OldPatchAccepted | party/commands.go:740-748 | For every member and every new metadata there are changes on that service after which the old patch is accepted. |
| Rejoin.CountingOnIsSafe | party/commands.go:740-748 | On the service that goes on counting, such a patch is accepted if and only if the member is exactly as it was. |
| PatchProtocol.NoLostUpdate | party/commands.go:577-659 | In every run, with any changes by other writers and any changes of the local party by notifications between two steps, lost answers, and requests that are sent again whether they were processed or not, and whatever the local party was at the start: every own patch that was accepted was built from its attempt's snapshot and accepted at that snapshot's revision; and if the snapshot was as fetched, from exactly what the service held when it accepted it. |
| PatchProtocol.BuiltFromCurrentIff | party/commands.go:577-659 | For every own patch in the log of every run, whatever its snapshot: it was built from what the service held if and only if the snapshot gives the same patch as what the service held. |
| PatchProtocol.PartyPatchEffect | party/commands.go:595-619 | A party patch applied to what it was built from meets every party goal, leaves every unplanned key alone, and is empty exactly when the goals are met. |
| PatchProtocol.MemberPatchEffect | party/commands.go:595-634 | The same for the member. |
| PatchProtocol.OwnPatchEffect | party/commands.go:604-634 | At the position of an own entry in the service's log the goals of that patch are met afterwards; no other key of that metadata has changed, no other member, and nothing else of the party but the revision the patch checks, which has moved by one. |
| PatchProtocol.IntentsAreSound | party/commands.go:574-598 | The theorems hold of every intent. |
| PatchKeeps.KeptIffAgreed | party/patch_builder.go:200-205 | A patch built from one state and applied to another keeps an unwritten path below a rewritten key if and only if the two states agree on it, for edits of a field and of the outfit slot. |
| PatchKeeps.InnerKeptIffAgreed | party/patch_builder.go:155-166 | The same for paths inside the text of the outfit slot. |
| PatchKeeps.OwnPatchKeepsPaths | party/commands.go:604-634 | An own patch that was built from what the service held keeps every unwritten path below the keys it rewrites: other writers' fields are the same before and after it in the log, or the template's where the service had no such key. |
| PatchKeeps.OwnPatchKeepsInner | party/commands.go:604-634 | It also keeps every unwritten path inside the text of the outfit slot. |
| PatchConflicts.StalePartyIsCharged | party/commands.go:613-615 | A stale answer to a party patch means that since its snapshot, if that was as fetched, the log has a change the client could not know of. |
| PatchConflicts.StaleMemberIsCharged | party/commands.go:628-630 | A stale answer to a member patch means such a change to something other than the party's metadata: no party patch is to blame, not even an own one whose answer was lost. |
| PatchConflicts.DoubtsBounded | party/commands.go:577-602 | Each notification makes at most one attempt start from a party that is not as fetched, and so does a start from such a party. |
| PatchConflicts.StalesAreCharged | party/commands.go:604-656 | At every moment of every run the stale answers are no more than the changes since the start that the client could not know of and the attempts whose snapshot was not as fetched; of the latter there are no more than notifications, and one if the start was not as fetched. |
| PatchConflicts.ConflictNeedsCharges | party/commands.go:636-661 | A call that gives up has had exactly maxRetries + 1 stale answers; unknown changes and notifications together, and one for a start that was not as fetched, are at least that many. |
| PatchConflicts.ChargesAreForeign | party/commands.go:636-661 | If no answer to an own patch is lost, the unknown changes are exactly the other writers'. |
| PatchConflicts.NeverGivesUp | party/commands.go:636-661 | If no answer to an own patch is lost, and the other writers' changes and the notifications, with one for a start that was not as fetched, are at most maxRetries, the call does not give up. |
| PatchSuccess.SuccessMeansMet | party/commands.go:595-658 | When a call returns without an error, every planned key of the party and of the member either had its intended value in the last attempt's snapshot or was carried, with that value, by a patch that the service acknowledged at that snapshot's revision; whatever the call started from. |
| PatchSuccess.SuccessAtTheService | party/commands.go:595-658 | If that snapshot was fetched, the service itself has met every party goal, and every member goal, at some moment since. |
| PatchSuccess.PatchCarries | party/patch_builder.go:193-221 | A patch carries an intended value for every planned key that the metadata it is built from does not have yet. |
| PatchSuccess.MemberOnlyAfterParty | party/commands.go:604-634 | Whenever a member patch is about to be sent, this attempt's party patch was empty or has been acknowledged at the snapshot's revision, and no patch of this attempt was stale. |
| PatchTraffic.PartyPatchesBounded | party/commands.go:600-634 | Party patches from fetched snapshots exceed by at most one the times the party goals were upset: a stale member patch alone never leads to a second party patch. |
| PatchTraffic.DoubtfulPatches | party/commands.go:577-634 | From snapshots that were not as fetched at most one party patch and one member patch are accepted for each notification, and one of each for a start that was not as fetched. |
| PatchTraffic.RequestsBounded | party/commands.go:577-659 | A call makes at most 4 * (maxRetries + 1) requests, the one under way included, whatever it started from. |
| PatchTraffic.SendsBounded | party/commands.go:577-659 | If no request is transmitted more than a given number of times, processed or not, the transmissions are at most that many times the requests allowed. |
| PatchProgress.EndsIff | party/commands.go:577-662 | In every run: the client's next step ends the call with a given outcome if and only if it has the reason for that outcome: nothing was missing or the last refresh was answered; no party, or no own member in it; the last attempt was stale; a request failed or was refused; the context ended during a pause. |
| PatchProgress.EndedForAReason | party/commands.go:577-662 | Every call that has ended in a run has had, at one of its steps, the reason for its outcome; in particular it is cancelled only by a pause that was cut short. |
| PatchProgress.EveryCallEnds | party/commands.go:577-662 | Every call ends when the client has taken six steps for each attempt it may make, not counting requests that are sent again, whatever the fate of its requests. |
| PatchProgress.DoneForGood | party/commands.go:577-662 | Once a call has ended, its outcome stays what it is. |
| PatchProgress.NoOtherEnd | party/commands.go:577-662 | A call whose account stays in the party, whose requests get through in the end and whose context stays alive ends in no other way than with success or by giving up. |
| PatchProgress.ChargesAreDisturbances | party/commands.go:604-656 | The changes the client cannot know of and the notifications are no more than the moves that disturb it and what it had missed at the start. |
| PatchProgress.SucceedsUnlessDisturbed | party/commands.go:577-662 | Such a call succeeds, for every sound configuration and starting party, if changes by others, notifications and lost answers, with what its start had missed, are at most maxRetries: a stale answer is followed by another attempt. |
| PatchProgress.EndsUpToDate | party/commands.go:636-658 | A call that succeeds or gives up leaves the local party as the service has it at that moment, unless it found nothing to do. |
| PatchProgress.OnePausePerAttempt | party/commands.go:645-650 | The next attempt begins exactly after a pause that was slept out. |
| Commands.Outside.Play | party/reducer.go:69-79 | A change by another writer, or of the local state by a notification, is the protocol's move and touches nothing of the attempt. |
| Commands.Outside.Await | party/commands.go:577-662 | Everything else that happens before the client's next step is played in order. |
| Commands.Outside.TransmitParty | transport/http/client.go:98-163 | One transmission of a party patch: the service processes it or does not, and it is answered, sent again or given up, just as that step of the protocol has it. |
| Commands.Outside.PatchParty | party/commands.go:717-738 | Sending a party patch until the transport has an answer or gives up, whatever happens in between, follows the protocol, and the reply tells where the protocol stands. |
| Commands.Outside.TransmitMember | transport/http/client.go:98-163 | One transmission of a member patch, in the same way. |
| Commands.Outside.PatchMember | party/commands.go:740-748 | Sending a member patch, in the same way. |
| Commands.Outside.TransmitGet | transport/http/client.go:98-163 | One transmission of a GET of the party: an answer replaces the local party by the service's. |
| Commands.Outside.RefreshPartyState | party/commands.go:750-758 | A refresh brings the party as the service has it at that moment, or ends the call. |
| Commands.Outside.TransmitCurrent | party/commands.go:690-715 | One transmission of a GET of the account's current party: it is used only if it is the snapshot's party and lists the account; otherwise the call ends with party-not-found. |
| Commands.Outside.HydratePartyState | party/commands.go:690-715 | The same until the transport has an answer or gives up. |
| Commands.BuildPatch | party/meta_codec.go:180-187 | Every update as the string that is sent. |
| Commands.BuildPatches | party/commands.go:595-608 | The two patches that are sent are the protocol's, computed through the heap-based builder, which is as before. |
| Commands.PartyCommands.TakeSnapshot | party/commands.go:578-593 | From the head of an attempt to a snapshot that has the own member, or to party-not-found, as the protocol has it. |
| Commands.PartyCommands.Prepare | party/commands.go:578-602 | From the head of an attempt to two built patches of which one is not empty, or to the outcome that ends the call, as the protocol has it. |
| Commands.PartyCommands.SendPatches | party/commands.go:604-634 | The party patch and, unless it was stale, the member patch, as the protocol has it. |
| Commands.PartyCommands.Conclude | party/commands.go:636-658 | After the patches: the party is fetched; then the call is over, given up after its last attempt, cancelled if the pause is cut short, and otherwise at the head of the next attempt, just as what happens has it. |
| Commands.PartyCommands.TryOnce | party/commands.go:577-658 | One turn of the loop follows the protocol to the head of the next attempt, to an outcome, or to the end of what happens. |
| Commands.PartyCommands.ApplyIntentWithRetry | party/commands.go:569-662 | From any local party and for any sequence of things that happen (changes by others, notifications, the fate of each transmission, the clock, the context), the call is the protocol's run of that sequence: it is over with the protocol's outcome exactly when the protocol is, which is so at the latest after six steps per attempt; the return after the loop is never reached. |
| Commands.IntentOutcome | party/commands.go:569-662 | For every intent, every starting party and every run: every patch from its attempt's snapshot and none lost from fetched ones, the bounds on both kinds of patches and on requests, stale answers charged, what success means key by key, and how many stale answers giving up takes. |
| Commands.IntentSucceeds | party/commands.go:569-662 | For every intent: a call whose account stays in the party, whose requests get through in the end, whose context stays alive and that is disturbed at most maxRetries times succeeds, with every planned key met in its last snapshot or carried by an acknowledged patch. |
| Readback.ReadyReadsBack | party/commands.go:1038-1046 | Metadata that meets a readiness intent is shown as that readiness. |
| Readback.PlaylistReadsBack | party/commands.go:1064-1081 | Metadata that meets a playlist goal is shown as the requested playlist, lower-cased, if and only if its island has no other printable `LinkId`. |
| Readback.PlaylistShows | party/commands.go:1064-1081 | After a playlist intent is applied to any metadata, the requested playlist is shown if and only if the island had no other printable `LinkId` before: the builder keeps that field, and it wins. |
| Readback.PlaylistHidden | party/commands.go:1064-1081 | An instance: an island with a `LinkId` of its own goes on showing that one after another playlist was set. |
| Readback.IslandAfter | party/patch_builder.go:103-111 | A playlist intent keeps every field of the island but the link it writes. |
| Readback.OutfitReadsBack | party/commands.go:1048-1062 | Metadata that meets an outfit intent shows that outfit. |
| Readback.EmoteReadsBack | party/commands.go:1048-1062 | Metadata that meets an emote intent shows that emote. |
| Readback.PlannedGoals | party/patch_builder.go:59-191 | What an intent asks of the readiness, outfit and emote entries of the member, whatever else it asks for. |
| Readback.IntentShows | party/commands.go:1038-1062 | From metadata that meets an intent its readiness, outfit, emote and custom key are extracted as requested. |
| Readback.FetchShows | party/commands.go:995-1036 | A fetched party whose metadata meets an intent has its readiness, outfit, emote and custom key in its cached fields. |
| NotificationLink.OnlyTheRevisionMoves | party/reducer.go:69-79 | A notification without party metadata raises the local revision to its own if that is larger, and never changes the local metadata. |
| NotificationLink.NotificationsBreakLink | party/reducer.go:251-259 | After any number of such notifications the local revision is current while the local metadata is not if and only if the metadata has changed, one of them carries the current revision, and none a later one. |
| NotificationLink.AcceptedIff | party/commands.go:578-619 | At any moment of a call when an attempt is about to start: its party patch is accepted if and only if the local revision is current, whatever the metadata; and it is accepted and built from what the service holds if and only if, besides, it is the patch one would build from that. |
| NotificationLink.StalePartyAccepted | party/commands.go:578-619 | At any moment of a call, for the party that was fetched last and notified any number of times since without party metadata: it passes for current although it is not if and only if the metadata has changed, a notification carries the current revision, and none a later one; then the service acknowledges the patch built from the old metadata and holds it merged over its own. |
| NotificationLink.ForeignFieldKeptIff | party/commands.go:604-619 | After that patch an unwritten path below a rewritten key reads as in the local party, and so keeps the service's value if and only if the two agree there. |
| NotificationLink.ForeignFieldOverwritten | party/reducer.go:251-259 | A run from a party as fetched: the other member changes the island and leaves, the call is notified of the departure only, and its playlist patch writes the island's old field back over the new one. |
| IntentCost.IntentSends | party/commands.go:577-659 | One intent costs at most 4 * (patch retries + 1) * (transport retries + 2) transmissions in every run each of whose requests is carried by a transport call and sent again, processed or not, only after an attempt that call recovers from. |
| IntentCost.ResendsBounded | transport/http/client.go:98-163 | A transport call sends a request again at most MaxRetries + 1 times. |
| Backoff.Exponential | internal/backoff/backoff.go:5-31 | The loop gives the cap if some wrapped doubling up to the attempt reaches it, and the wrapped doubling of the attempt otherwise. |
| Backoff.ReachingIsLeast | internal/backoff/backoff.go:22-28 | The check doubles up to the least min * 2^k, k at least 1, that reaches the cap. |
| Backoff.ExactWhenItFits | internal/backoff/backoff.go:5-31 | If that doubling is below 2^63, the delay is min(max, min * 2^attempt) after defaulting, for every attempt. |
| Backoff.ExactIff | internal/backoff/backoff.go:5-31 | The delay is right at every attempt if and only if that doubling is below 2^63; otherwise some attempt gets a negative delay. |
| Backoff.SmallCapFits | internal/backoff/backoff.go:5-31 | A cap below 2^62 never overflows. |
| Backoff.DelayMonotone | internal/backoff/backoff.go:5-31 | Where it fits, the delay never shrinks with the attempt and stays between the two bounds. |
| Backoff.CapAtLimitFails | internal/backoff/backoff.go:22-28 | The smallest cap for which it can fail: with both bounds 2^62, the first doubling is the least 64-bit integer. |
| Scheduler.Normalized | auth/scheduler.go:35-79 | Whatever is configured, the scheduler works with positive times and an ordered backoff range, and a valid configuration is left as it is. |
| HttpRetry.RetryAfterHonoured | transport/http/client.go:321-343 | A Retry-After in whole seconds is honoured if and only if it is at most 9223372036; above, the product wraps. |
| HttpRetry.Normalized | transport/http/client.go:59-90 | Whatever is configured, the client works with a valid configuration (no negative retry count, a positive and ordered backoff range), and a valid one is left as it is. |
| HttpRetry.EndsAtBounded | transport/http/client.go:98-163 | Every call ends after at most MaxRetries + 2 attempts, and makes the last of these only after a token refresh. |
| HttpRetry.PausesCount | transport/http/client.go:98-163 | Retries are the pauses plus the one refresh if there was one. |
| HttpRetry.SuccessIff | transport/http/client.go:119-162 | A call returns no error if and only if some attempt is answered by a response that is no auth failure, 401, 429 or 5xx and every earlier attempt could be recovered from. |
| HttpOutcome.RetriedUntilAnswered | transport/http/client.go:98-163 | Told from raw answers: if up to maxRetries attempts get no answer, 429 or 5xx, and at most one an expired token that can be refreshed, and then a usable answer comes, the call ends with it, having paused after each of the former and not after the latter, as long as each asked for. |
| HttpOutcome.GivesUp | transport/http/client.go:106-158 | maxRetries + 1 such failures end the call with an error that says what the last was, after maxRetries pauses. |
| HttpOutcome.OneRefresh | transport/http/client.go:119-131 | A second expired token ends the call as unauthorized. |
| HttpOutcome.PauseAsTold | transport/http/client.go:138-147 | After a 429 the client pauses for the whole seconds that Retry-After says, up to 292 years. |
| HttpOutcome.RejectedIff | transport/http/client.go:275-319 | Which error bodies say that the token is not accepted, whatever the case of their letters. |
| HttpRetry.UsableIsGood | transport/http/client.go:256-319 | The chain of tests lets through exactly the responses with none of those statuses and no auth-failure body. |
| HttpRetry.Client.Request | transport/http/client.go:92-164 | The loop terminates, ends where the attempts say, returns the verdict on the last one, pauses for exactly the delays of the attempts before it, sends at most MaxRetries + 2 times, refreshes at most once and pauses at most MaxRetries times. |
| Scheduler.RefreshScheduler.Sleep | auth/scheduler.go:161-172 | A wait is never shorter than asked, a non-positive one lasts the minimal interval, and an ended context ends it without effect. |
| Scheduler.RefreshScheduler.TryRefresh | auth/scheduler.go:120-158 | One refresh and what follows it, as in the specification of a round. |
| Scheduler.RefreshScheduler.Turn | auth/scheduler.go:84-158 | One turn of the loop is one round of the specification. |
| Scheduler.RefreshScheduler.Run | auth/scheduler.go:81-159 | Any number of turns gives exactly the log of the rounds. |
| Scheduler.RunIsDisciplined | auth/scheduler.go:81-159 | Every act of every run is in its place: what may follow what, at what time, after a wait of what length, and how many failures count. |
| Scheduler.RefreshIsDue | auth/scheduler.go:105-120 | Every refresh comes after a full wait of at least the minimal interval and no earlier than expiry minus skew of the token loaded before that wait (and of the one sent, if it expires no later); only waits over 292 years are cut short. |
| Scheduler.SentEarlyIff | auth/scheduler.go:105-120 | The token that is sent is sent before it calls for it if and only if it expires later than the token loaded before the wait, and than the load plus minimal interval and skew, by more than the wait was late. |
| Scheduler.RefreshesSpaced | auth/scheduler.go:120-146 | Any two refreshes are at least the minimal interval apart; after the n-th transient failure since tokens were last saved the backoff for n - 1 comes on top. |
| Scheduler.FatalIsLast | auth/scheduler.go:121-126 | Nothing is done after a fatal answer. |
| SchedulerProgress.StopsIff | auth/scheduler.go:84-158 | In every run the next round stops the scheduler if and only if the context has ended before it or during a wait, or the answer was fatal. |
| SchedulerProgress.Refreshes | auth/scheduler.go:90-158 | A round that finds tokens twice loads, waits the larger of the minimal interval and the time until they are due, loads again and refreshes what it loaded last; after a transient failure it waits for the backoff; failures count up, and back to none when tokens are saved. |
| SchedulerProgress.NothingToDo | auth/scheduler.go:90-103 | A round without tokens is a wait of the minimal interval. |
| SchedulerProgress.RefreshesEveryRound | auth/scheduler.go:81-159 | As long as nothing stops it, there is exactly one refresh for each round that finds tokens twice. |
| Scheduler.BackoffIsIdeal | auth/scheduler.go:131-134 | With a cap below 2^62 that extra wait is min(max, min * 2^(n-1)). |
| Scheduler.FreshTokenRefreshedEarly | auth/scheduler.go:105-120 | A run in which the token that is sent was stored during the wait and is refreshed 3569 seconds before it calls for it. |
| BusModel.ChannelSafety | events/bus.go:55-195 | In every interleaving no channel is closed twice or sent to after closing, and the send to a waiter never blocks, since a waiter's channel in the table is open and empty with room for one event. |
| BusModel.WaiterContract | events/bus.go:119-174 | In every interleaving: an event returned is the first one emitted since registration that the predicate accepts; a closed bus is reported only if it is closed and no such event came; a closed channel is never taken for anything else; and a finished call's id is out of the table. |
| BusModel.EveryWaiter | events/bus.go:106-174 | Where every WaitFor stands in every interleaving, from registration to return. |
| BusModel.Conservation | events/bus.go:55-104 | For every subscriber, received plus buffered is an in-order selection of the events since it subscribed, and with the dropped ones their number is that of all of them. |
| BusModel.DroppedIffFull | events/bus.go:99-104 | In every reachable state an event is dropped for a subscriber if and only if its buffer is full. |
| BusModel.CancelTwice | events/bus.go:75-195 | Cancelling again, closing again, and cancelling or giving up after closing do nothing. |
| BusEffects.SubscribeOpens | events/bus.go:55-89 | In every reachable state of an open bus a subscriber gets a new id and an open channel with the room it asks for, at least one place; on a closed bus nothing happens; nothing else changes. |
| BusEffects.WaitOpens | events/bus.go:119-138 | A waiter likewise gets a new id and waits, blocked, for what its predicate accepts. |
| BusEffects.CancelEnds | events/bus.go:75-86 | Cancelling a subscription takes it off the table and closes its channel, which keeps what is in it; every other id, channel and history is as before. |
| BusEffects.NothingMore | events/bus.go:75-104 | Whatever happens later, an ended subscription is never given an event again: received and buffered together stay what they were. |
| BusEffects.CancelledForGood | events/bus.go:27-37 | So cancelling ends a subscription for good, in every continuation of every run. |
| BusEffects.GivingUpEnds | events/bus.go:159-173 | A blocked WaitFor whose context ends is off the table, its channel closed, and returns a timeout for a deadline and a cancellation otherwise; nothing else changes. |
| BusEffects.GaveUpForAReason | events/bus.go:159-173 | In every run a WaitFor reports a timeout only if its deadline passed while it was blocked, and a cancellation only if its context was cancelled then. |
| BusEffects.CloseEnds | events/bus.go:176-195 | Closing the bus empties both tables and closes every channel, which keeps what is in it. |
| BusEffects.ClosedForGood | events/bus.go:55-195 | A closed bus stays closed, hands out no id and emits nothing, whatever is tried. |
| BusEffects.TakeGives | events/bus.go:99-104 | A subscriber takes the oldest event it has not taken. |
| BusEffects.EventWakes | events/bus.go:106-145 | An event that a waiter's predicate accepts is what its next receive returns. |
| BusEffects.CloseWakes | events/bus.go:143-150 | After the bus is closed each waiter finds its channel closed and reports a closed bus. |
| EventBus.Bus.constructor | events/bus.go:48-53 | A new bus is open and empty. |
| EventBus.Bus.Subscribe | events/bus.go:55-89 | Fails exactly on a closed bus; otherwise does the subscribe step, with a channel of at least one place, and hands out a subscription to it. |
| EventBus.Bus.OfferAll | events/bus.go:99-104 | Every subscriber's channel gets the event unless it is full, in any order. |
| EventBus.Bus.NotifyAll | events/bus.go:106-114 | Exactly the accepting waiters get the event, are closed and leave the table, in any order. |
| EventBus.Bus.Emit | events/bus.go:91-117 | Fails exactly on a closed bus; otherwise does the emit step. |
| EventBus.Bus.Register | events/bus.go:124-138 | Fails exactly on a closed bus; otherwise does the register step. |
| EventBus.Bus.Abandon | events/bus.go:159-166 | Does the give-up step: the waiter, if it is still there, leaves the table and its channel is closed with what is in it; every other channel is as before. |
| EventBus.Bus.CancelSubscription | events/bus.go:75-86 | Does the cancel step: the id is off the table, its channel closed with what is in it, every other channel as before. |
| EventBus.Bus.Close | events/bus.go:176-195 | Does the close step: both tables are empty, and every channel is closed with what is in it. |
| EventBus.Subscription.Cancel | events/bus.go:27-37 | After the first call and after every later one the subscription is off the table and its channel is closed with what is in it; only the first does anything. |
| Reducer.PatchedAt | party/reducer.go:180-186 | A merged entry is gone if its key is removed, else the update's, else the old one. |
| Reducer.MergeMeta | party/reducer.go:273-289 | The two loops, in any order of the map, give the old metadata overridden by the updates minus the removed keys. |
| Reducer.MergeMember | party/reducer.go:144-186 | The fields an update carries override the member's, empty ones do not; the revision only grows. |
| Reducer.State.SyncParty | party/reducer.go:81-93 | Custom key, region and a non-empty playlist are taken from the metadata where it has them. |
| Reducer.State.Prepare | party/reducer.go:73-79 | What every event does first: a party, the larger revision, the time, the party metadata. |
| Reducer.State.ApplyHeader | party/reducer.go:201-215 | The event's non-empty fields, then the metadata. |
| Reducer.State.UpdateMember | party/reducer.go:139-189 | The merged member replaces the old one. |
| Reducer.State.RemoveMember | party/reducer.go:190-200 | The member is gone, and with it the captaincy it had. |
| Reducer.State.ApplyEvent | party/reducer.go:69-219 | The local party after any event, and that only an unknown kind is refused. |
| NotificationEffects.JoinEffect | party/reducer.go:112-138 | After a join the member is in the party just as the event has it, with the party's time if it has none; it is captain if its role says so or there was none; nothing else changes but id, revision and time. |
| NotificationEffects.UpdateEffect | party/reducer.go:139-189 | After an update: each field of the member new or old as the event has one or not, the metadata entry by entry, the captain by the role; every other member as before. |
| NotificationEffects.LeaveEffect | party/reducer.go:190-200 | After a departure exactly that member is gone, with the captaincy it had. |
| NotificationEffects.PartyEffect | party/reducer.go:201-215 | After a party update the metadata has changed entry by entry, and captain, custom key, region and playlist are what metadata, event or the old party say, in this order. |
| NotificationEffects.SnapshotEffect | party/reducer.go:95-111 | A snapshot sets id and revision, even to a smaller one. |
| Decoder.ToStringSlice | party/xmpp_decoder.go:397-423 | The trimmed printed items of a list in order, without blank and nil ones; anything but a list gives none. |
| Decoder.XMPPDecoder.HandleMessage | party/xmpp_decoder.go:76-257 | The local party after any notification: the reducer's, for the event decoded against the party before. |
| NotificationEffects.Joined | party/xmpp_decoder.go:76-119 | After MEMBER_JOINED the account is in the party with the notification's name, role, revision, time and metadata, entry by entry, and with the readiness and loadout read from it; every other member and field is as before, the revision the larger one. |
| NotificationEffects.Left | party/xmpp_decoder.go:170-203 | After MEMBER_LEFT or MEMBER_KICKED exactly that account is gone, with the captaincy it had. |
| NotificationEffects.NewCaptain | party/xmpp_decoder.go:204-222 | After MEMBER_NEW_CAPTAIN the captain is that account, and members and metadata are as before. |
| NotificationEffects.StateUpdated | party/xmpp_decoder.go:120-169 | After MEMBER_STATE_UPDATED the member's metadata has changed entry by entry; name, role and revision are the notification's where it has them; readiness and loadout are read from the new metadata, a loadout field of which that has nothing stays; every other member is as before. |
| NotificationEffects.PartyChanged | party/xmpp_decoder.go:223-257 | After PARTY_UPDATED the party's metadata has changed entry by entry, the cached fields follow, and members and captain are as before. |
| NotificationEffects.RemovedKeys | party/xmpp_decoder.go:397-423 | A list of removed keys names exactly the trimmed printed items that are neither blank nor nil. |
| Decoder.MapRemoteParty | party/commands.go:995-1036 | The party with its members in order, a later entry for an account replacing an earlier one. |
| NotificationEffects.FetchedParty | party/commands.go:995-1036 | A fetched party has the header and the metadata of the answer entry by entry, a member for exactly the accounts it lists, each as the last entry for it says, and the captain it names. |
| NotificationEffects.LastIs | party/commands.go:1007-1033 | The entry that counts for an account is the last one with its id. |
| NotificationEffects.CaptainIsLast | party/commands.go:1030-1032 | The captain is the account of the last entry with that role. |
| Decoder.MergesAgree | party/xmpp_decoder.go:120-169 | The decoder's own merge of a member's metadata equals what the reducer stores for the same notification, for known and unknown members and for keys both updated and removed. |
| Decoder.EventKeeps | party/reducer.go:69-219 | Every event but a member update keeps the cached fields in agreement with the metadata. |
| Decoder.UpdateKeeps | party/xmpp_decoder.go:120-169 | A member update does too, when it is decoded against the state it is applied to. |
| Decoder.NotificationKeeps | party/xmpp_decoder.go:76-257 | So does every notification. |
| Decoder.MappedIsCoherent | party/commands.go:995-1036 | A fetched party's cached fields agree with its metadata. |
| Decoder.CacheCoherent | party/reducer.go:69-219 | Over every run of notifications, fetches and leavings: member keys are account ids, custom key and region equal their metadata where present, playlist equals the non-empty extracted one, and every member's readiness is the one extracted from its lobby metadata. |
| Decoder.ReadyAfterRace | party/xmpp_decoder.go:123-169 | If the party is replaced between the decoder's snapshot and its event, the member's readiness still agrees with its metadata if and only if the notification touches the lobby entry or both parties read the same readiness. |
| Decoder.ReadinessLost | party/xmpp_decoder.go:123-169 | An instance: a member who is ready, whose renaming is decoded before the party is fetched and applied after, is shown as not ready. |
| Decoder.DuplicateIsHarmless | party/xmpp_decoder.go:76-257 | A notification of any kind delivered twice (at the same clock reading) leaves the party exactly as delivering it once does. |
| Decoder.EventTwice | party/reducer.go:69-219 | Applying a join, leave, kick or party update twice is applying it once. |
| Decoder.UpdateTwice | party/xmpp_decoder.go:120-169 | The same for a member update, which the second time is decoded against the outcome of the first. |
| XmppModel.LoopsNeverBlock | xmpp/client.go:269-274 | In every interleaving no loop of any connection blocks on its error channel, which has room for all three, and the channel never carries a nil error. |
| XmppModel.AtMostOneSupervisor | xmpp/client.go:92-109 | Over any calls of Connect and Close two supervisors are never active at once, and the client is marked running while one is. |
| XmppModel.ConnectsAlternate | xmpp/client.go:263-279 | Connected and Disconnected strictly alternate over the whole log, across supervisors. |
| XmppModel.AttemptsNumbered | xmpp/client.go:197-211 | The k-th failure a supervisor reports is numbered k and announces the delay for k - 1. |
| XmppModel.DelaysIdeal | xmpp/client.go:197-211 | With a cap below 2^62 that delay is min(max, min * 2^(k-1)). |
| XmppModel.BudgetKept | xmpp/client.go:213-223 | A positive budget allows budget + 1 failures; the last of them, and nothing else, is reported fatal, once, and ends the supervisor; without a budget nothing is fatal. |
| XmppModel.FailuresNeverReset | xmpp/client.go:187-191 | The branch that resets the count is never taken: the count never falls, however long connections last. |
| XmppModel.NumberIsConsecutiveIff | xmpp/client.go:197-211 | The number reported with a failure is that of the failures in a row if and only if the supervisor had none before it was last connected. |
| XmppModel.DropCounts | xmpp/client.go:177-229 | In every run, after any number of failures, a connection that opens, works and drops counts as one more of them. |
| XmppModel.BudgetSpentBetweenConnections | xmpp/client.go:187-223 | A run with a budget of one reconnect in which the supervisor gives up at the second drop, though its connection worked between the two and only one failure came since. |
| XmppShutdown.ConnectStarts | xmpp/client.go:92-109 | In every reachable state Connect starts a new supervisor at the head of its loop, with no failures, exactly if the client is not running. |
| XmppShutdown.CloseCancels | xmpp/client.go:111-123 | In every reachable state Close ends the context of the active supervisor of a running client, and does nothing else. |
| XmppShutdown.EndedForGood | xmpp/client.go:177-182 | An ended context stays ended, and a supervisor that has stopped stays stopped, in every continuation. |
| XmppShutdown.CanceledStops | xmpp/client.go:177-229 | From every reachable state: a supervisor whose context has ended has stopped when it has taken eight steps of its own, however it is interleaved, and reports at most one more lost connection. |
| XmppShutdown.NoNewConnection | xmpp/client.go:179-183 | Such a supervisor never sets out to connect again: from the head of its loop it only stops. |
| XmppShutdown.ErrorUnblocks | xmpp/client.go:265-275 | A supervisor that waits on its connection goes on as soon as one of the loops ends with an error, as they do with the context. |
| XmppShutdown.StoppingClears | xmpp/client.go:524-535 | Its last step leaves the client not running and without a connection. |
| XmppShutdown.ClosedClientStops | xmpp/client.go:111-139 | After Close and eight unblocked steps of its supervisor, the client is not running and has no connection, unless it has been connected anew. |
| XmppShutdown.StopsIff | xmpp/client.go:177-229 | In every reachable state: a supervisor's next step makes it stop if and only if its context has ended and it is at the head of the loop or woken from its pause by that, its connection was cancelled, or the failure exceeds the budget. |
| XmppShutdown.FailureIsRetried | xmpp/client.go:197-228 | A failure within the budget is counted and followed, after the pause, by another attempt to connect. |
| XmppShutdown.LoopsStarted | xmpp/client.go:269-274 | In every run each connection has its read and write loops, and its keep-alive loop if that is configured. |
| XmppClient.Client.Connect | xmpp/client.go:92-109 | The client is running; a supervisor with a live context has been started exactly when it was not running before. |
| XmppClient.Client.Close | xmpp/client.go:111-123 | If the client is running, the context of its supervisor, and no other, has ended. |
| XmppClient.Client.SendError | xmpp/client.go:433-480 | Sending to the error channel appends the error and ends the loop, or blocks when the channel is full. |
| XmppClient.Client.ReadTurn | xmpp/client.go:425-466 | A turn of the read loop sends an error once and ends, or goes on. |
| XmppClient.Client.WriteTurn | xmpp/client.go:468-485 | A turn of the write loop sends the context's error or the write's once and ends, or goes on. |
| XmppClient.Client.KeepAliveTurn | xmpp/client.go:487-506 | A turn of the keep-alive loop sends an error only when the send queue is full, and ends silently with its context. |
| XmppClient.Client.Play | xmpp/client.go:92-139 | What callers and the loops of a connection do while a supervisor is at work is the model's move, and leaves the supervisor where it is. |
| XmppClient.Client.ConnectAndRun | xmpp/client.go:231-285 | Opening, announcing, waiting for an error and clearing up, with whatever happens in between, follows the model step by step. |
| XmppClient.Client.WaitForError | xmpp/client.go:265-276 | The supervisor receives the first error that one of its loops has sent, and is blocked until there is one. |
| XmppClient.Client.Judge | xmpp/client.go:185-228 | What follows the end of a connection: a return, or another turn, after a pause if it failed, as the model has it. |
| XmppClient.Client.Fail | xmpp/client.go:197-223 | Counting a failure, announcing the delay and judging the budget are one step of the model. |
| XmppClient.Client.ClearConn | xmpp/client.go:515-522 | A connection is cleared only if it is still the client's. |
| XmppClient.Client.MarkStopped | xmpp/client.go:524-535 | The client is no longer running and holds no connection. |
| XmppClient.Client.Supervise | xmpp/client.go:177-229 | For any sequence of things that happen, the supervisor takes its steps as the model has them: it has returned, with the client not running and without a connection, or all of it has been played. |

## Left out

- JSON numbers: numbers are integers or keep their spelling. The code reads the numbers of an object it rewrites as 64-bit floating-point values and prints them again, so other writers' numbers inside a rewritten `_j` object may lose precision; the theorems that an edit or a patch keeps a path speak of the values as `encoding/json` reads them. Floating-point printing under keys without a suffix rule is left out too.
- Texts: a string a user passes in is taken as plain text even if it is itself JSON; two spellings of one object are different texts with the same tree.
- Keys that are JSON texts or printed lists or maps in a list of removed keys: such items are skipped.
- Case mapping outside ASCII: only the two other characters whose lower case is an ASCII letter are mapped.
- The embedded templates are maps of strings given as a parameter, which is what the two template files contain.
- Templates.DeepMerge: the destination is a tree of maps and the source shares no map with it. With a shared map the outcome is not a function of the two: for a destination `{a: m}` and a source `{a: {y: 2}, b: m}` it depends on which of the two keys Go's map iteration visits first.
- Templates.PathSet: the tree that is written into is assumed not to contain a map twice.
- Reducer.State.ApplyEvent: metadata maps and the members of a party are values here, so sharing of a map between an event and the stored party is not modelled; `Snapshot` and `Replace` copy in the source for that reason.
- Captain and loadout coherence: the code reuses a member's old role and never clears a loadout field, so the two cached values can disagree with the metadata.
- Decoder.XMPPDecoder.HandleMessage: reading identifiers, times and revisions out of the payload, and the events it emits on the bus; a notification is a record of typed fields.
- Presence and IQ stanzas, and notifications that change no state.
- Creating, joining and leaving a party, and following another member: they replace the local party with what the service answers.
- Commands.PartyCommands.ApplyIntentWithRetry: the pause between attempts is only its outcome, slept or cancelled; response bodies are the classes accepted, stale, refused and failed.
- A transmission that the network delivers only after the client has gone on: a request takes effect before its answer is seen or given up, or not at all.
- Fetched parties in the patch protocol have only the fields that patching reads; `Decoder.MapRemoteParty` and `Readback.FetchShows` have the others.
- EventBus.Bus.Register and EventBus.Bus.Abandon are the two critical sections of `WaitFor`; its blocking choice between channel and context is the steps `WaitReceives`, `WaitAsks` and `WaitGivesUp` of `BusModel`.
- Ids of the bus are unbounded; the source's are 64 bits wide.
- Predicates of waiters are pure functions.
- HTTP, WebSocket and TLS, header building, URLs and logging; the XMPP handshake is part of opening a connection.
- HttpRetry.Client.Request: a response is its status, its Retry-After header and the two error fields of its body.
- XmppClient.Client.Supervise: the keep-alive loop is taken never to report a cancelled context, as in the source.
- XmppClient.Client.Close: waiting for the supervisor to finish; frames queued for sending, which a cancelled write loop may still take.
- The epic token grant loop, the token provider's locking, friends, presence, matchmaking and client start-up.
- Wall-clock time: clocks are abstract and never go back, and a timer fires no earlier than it should.
- Scheduler.RefreshScheduler.Run: the source's loop has no end, so it is run for any number of turns; log messages and emitted events are left out.
