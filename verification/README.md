# Verification of the mumble-sip bridge

This project models the parts of the bridge where its correctness is least obvious, and proves what they
are there for:

- **Calls** (`CallMachine`, `Effects`, `Ownership`, `Orphans`, `Transcripts`, `Generations`, `Belongings`,
  `Turns`, `Media`, `Removals`, `Freed`, `Registrations`, `Leaks`, `SessionControl`): the set-up and teardown of a call, shared by its
  setup task, the main event loop, pjsip's callback threads and the deferred-cleanup threads.  `Walkthrough`,
  `Scripts`, `Handovers` and `Breaches` hold concrete runs, and what happens when a rule is broken.
- **Speech** (`Cache`, `SingleFlight`, `CachedPhrases`, `Availability`, `Hostname`): the phrase cache, one synthesis per
  phrase, the runtime's recovery, and hostnames read aloud.
- **Audio** (`TransmitGate`, `Mixer`, `SampleRing`, `AudioPort`, `Resample`, `WavRepair`, `Debounce`): the transmit gate,
  the mixer, the media port's rings, resampling, the repair of streamed WAV headers, and the announcement
  worker.

## How calls are modelled

A `World` is everything the threads share, plus a program point with its locals for every thread. One step
is one lock acquisition, one foreign call or one await outcome, so threads interleave at every lock. What
pjsip and the network answer comes with the action. Call instances, ports and pools have identities of
their own, while call ids and conference slots may be used again. The event channel is first in, first out,
and the main loop handles one disconnect at a time; both are part of the machine. `After(Init(n), actions)`
is the state a run leads to, and a *rule* is an assumption on which actions a run may take:

| rule | assumed of | says |
|---|---|---|
| `Free` | nothing | any enabled action |
| `AnswerRule` | pjsip | answering a call that has ended fails |
| `ReuseRule` | pjsip | an id is handed out again only after its call ended, that call was taken from the channel, and its setup has answered or returned |
| `SerialRule` | scheduler | the two lookups of a disconnect and the commit of the same call do not overlap |
| `TurnRule` | scheduler | no setup is between the listing of its port and its registration while an earlier setup of its id, still the owner, gives the id up, nor lists its port before that setup's teardown has emptied the maps |
| `SegmentRule` | scheduler | setup tasks and the main loop are interrupted at awaits only, which keeps the two rules above: `SegmentsTakeTurns` |
| `IdRule` | pjsip | ids are below the configured number of calls (`src/sip/mod.rs:86`) |
| `FreshIdRule` | pjsip | stronger than `ReuseRule`: no setup and no media callback of the id is live |
| `AnsweredRule` | pjsip | media callbacks start only for a call on the line that has been answered |
| `SlotRule` | pjsip | a slot is not reused while it is occupied or a removal of it is asked for, under way or being completed |
| `AtomicCallbackRule` | scheduler | a media callback runs without interruption |
| `RemovalRule` | pjsip | removals are accepted and complete with status 0 |

`CallRules` is the answer, reuse and serial rules; `CappedRules` adds ids; `LockRules` is the call rules and
slots, and `TurnRules` adds turns; `MediaRules` is the answer, serial, fresh-id, answered and slot rules;
`LeakRules` adds the last two.  The ownership results need none of them.  `ACallGoesThrough` shows a run that
keeps every rule, so none of the results is about nothing.

The two scheduling rules are all that is needed of the intention in `src/session.rs:602-605` and
`src/session.rs:728-734` that a commit or an abort be atomic, and they are exact: after any run that keeps the
rules, a step that breaks one of them has a continuation in which a session outlives its call
(`BreakingSerialOrphans`), or in which an earlier call's setup empties a map of a later call
whose port can still be found there (`BreakingTurnsTakes`).

The steps of the machine, and the lines they stand for:

| step | lines |
|---|---|
| `Gate`, `MakePort`, `ListPort`, `Listen`, `TakeNumber`, `Register` | `src/session.rs:133-151`, `211-222`, `242`, `246`, `256-257`, `258-261` |
| `AnswerCall`, `AfterAwait` | `src/session.rs:263-283`, `285-346` |
| `Unlist`, `CheckToken`, `Store` | `src/session.rs:606`, `608-634`, `682` |
| `AbortSetup`, `TakePendingPort`, `TakeActive`, `Resolve`, `RegisterCleanup`, `AskRemove`, `FallBack`, `Close` | `src/session.rs:694-778`, `636-663`, `892-944`, `src/sip/callbacks.rs:88-90` |
| `LookUp`, `CancelPending` | `src/session.rs:867-873`, `850-862` |
| `TakeForMedia`, `MakePool`, `AddPort`, `Publish`, `Notify`, `PutBack` | `src/sip/callbacks.rs:315-322`, `322-348`, `350-361`, `376-382`, `385-387`, `328-331` |
| `CompleteRemoval`, `OperationDone`, `Dispose`, `Defer` | `src/sip/callbacks.rs:389-418`, `src/session.rs:68-86` |
| `RingIn`, `HangUpCall`, `DispatchEvent` | `src/sip/callbacks.rs:275-300`, `src/main.rs:96-115` |

## Where the code does less than its comments or its callers may expect

- The commit is not atomic at lock granularity: line 606 and line 682 take different locks, and nothing keeps a
  disconnect's lookups from falling between them (`ASessionIsOrphaned`, `BreakingSerialOrphans`).
- The generation guards only the removal of the pending entry.  A setup that has passed that test goes on to
  empty `PENDING_PORTS`, `ACTIVE_MEDIA` and the media-ready notifiers by call id, lock by lock, and does not look
  again; a call that reuses the id in the meantime loses its port, its notifier or its media, which
  `src/session.rs:252-255` and `src/session.rs:728-734` mean to exclude (`AbortTakesFromLaterCall`,
  `LateCancelTakesFromLaterCall`, `BreakingTurnsTakes`).  The late cancel can free a port that the conference
  bridge still has.
- Even if calls take turns, a later call may take what an earlier one of its id has left in the maps, while that
  one's setup still runs (`AbortTakesFromEarlierCall`).
- Several retry bursts can run at once. A second burst needs no success while the first runs, if an earlier
  burst ends in the meantime: `EarlierBurstLetsAnotherBegin`, with the exact condition in
  `SecondBurstNeedsSettling`.
- A hostname with two hyphens in a row is not heard back from its words, and it can sound like another valid
  name: `SpokenHostsAreHeard`, `HyphensSoundLikeDash`.

## Model

| member | source | states |
|---|---|---|
| Ownership.DestroyRightIsLinear | src/session.rs:736-778 | in every run at lock granularity, with ids and slots reused at will, the right to destroy a port is in exactly one of a setup task, the main loop, a session, the cleanup registry or a disposing thread, or is abandoned or spent, and `destroy_custom_port` runs at most once for it |
| Ownership.ReleaseRightIsLinear | src/sip/callbacks.rs:311-418 | the same for the pool of a conference slot and `pj_pool_release` |
| Transcripts.SessionsAreEarned | src/session.rs:285-346 | a session is stored, and a setup is past its connection, only if the gate had room, the answer went through, media came, the intro (if any) was played and the connection came about, in that order and with nothing else in between; nothing is assumed of the run |
| Transcripts.RefusedNeverStores | src/session.rs:274-344 | once a setup was refused at the gate, or by a failed answer, a dead notifier, a failed connection or a caller who had left, no later state stores a session of its call |
| Transcripts.NoRoomNoTrace | src/session.rs:133-151 | the gate refuses exactly if sessions and pending setups are as many as the limit, and a refused caller leaves no port, number, entry, notifier, answer or thread, then or later |
| Transcripts.AbortsHaveReasons | src/session.rs:274-344 | a setup tears its port down as given up early, and so drops its notifier, exactly for the reasons that leave the notifier registered, and as given up late for the others; a setup that is gone was refused, gave up or was connected |
| Orphans.NoOrphanedSession | src/session.rs:602-683 | once the main loop has looked up the end of a call, no later state stores a session of that call, wherever its setup was and even if its id is reused |
| Orphans.LookUpDuringCommitDooms | src/session.rs:865-873 | a disconnect looked up between the removal of the pending entry and the insertion of the session leaves a setup that nothing can cancel any more |
| Orphans.CommitDuringLookUpDooms | src/session.rs:602-608 | so does a commit that starts between the two lookups of its disconnect |
| Orphans.DoomedStaysDoomed | src/session.rs:850-862 | no step of any other thread rescues such a setup |
| Orphans.DoomedBecomesOrphan | src/session.rs:608-682 | and its own two steps, which nothing blocks, store a session that no disconnect of its own will remove |
| Breaches.ASessionIsOrphaned | src/session.rs:602-683 | a run from the start that keeps the answer and reuse rules and ends with the session of an ended call stored |
| Breaches.BreakingSerialOrphans | src/session.rs:865-873 | after any run that keeps the call rules, a step that breaks only `SerialRule` is followed, by the setup's own steps alone, by such a session; so the rule is exact |
| Orphans.CallCapHolds | src/session.rs:133-151 | in every run, no id is both a session and a pending setup, and the two maps together never hold more than the configured number of calls, although gate and registration are separated by awaits |
| Orphans.ReplacedSetupIsIsolated | src/session.rs:736-747 | no step of a setup that fails its ownership test, from when its id has gone to a later generation, changes any map kept under a call id, for any id |
| Orphans.ReplacedStaysReplaced | src/session.rs:718-726 | no step of another thread gives such a setup its id back |
| Orphans.ReplacedIsIsolatedInRuns | src/session.rs:606-634 | so in every run that keeps `CallRules` such a setup leaves all those maps as they are, step after step, to its end |
| Turns.LaterCallsKeepTheirs | src/session.rs:694-778 | in every run in which calls take turns, whatever a step of a setup or of the main loop takes from a map kept under a call id, or replaces there, belongs to its own call or to an earlier one of the same id, and entries and sessions removed are its own: later calls and other ids lose nothing, wherever the setup or its teardown is |
| Turns.SegmentsTakeTurns | src/session.rs:602-605 | code that is interrupted at awaits only keeps the turns and the commit apart |
| Handovers.AbortTakesFromLaterCall | src/session.rs:728-749 | without turns: a run in which an abort that owned its id removes the pending port and the notifier of the next call of the id, whose setup then finds its channel closed |
| Handovers.LateCancelTakesFromLaterCall | src/session.rs:606-661 | without turns: a run in which a late cancel takes the active media of the next call, has that call's slot removed, and frees its own port while it sits in another slot |
| Handovers.AbortTakesFromEarlierCall | src/session.rs:748-761 | in turns: a run in which an abort takes the active media of the previous call of its id, whose setup still runs |
| Breaches.BreakingTurnsTakes | src/session.rs:252-261 | after any run that keeps all the rules, a step that breaks only `TurnRule`, while the later call's port is registered under the id or with a callback for it, has a continuation under the other rules in which the earlier call's setup takes a port, a notifier or media of the later call; so the rule is exact |
| Generations.GenerationsAreUnique | src/session.rs:256-261 | in every run, with nothing assumed, no two setups hold the same generation, and an entry that passes a setup's ownership test is its own |
| Orphans.DisposalIsIsolated | src/session.rs:68-86 | a deferred cleanup, or a callback's, touches no map |
| MediaAttachment.MediaReadyMeansAttached | src/session.rs:285-306 | past the media wait, and in every stored session, the call's active media names the slot in which its own port sits, and no pending port is left, though the media callback runs in fine steps |
| MediaAttachment.TeardownTakesTheRemoveBranch | src/session.rs:907-944 | so its teardown always hands its own port and pool to the removal of its own slot: the branches that skip the destroy, or defer it without a removal, are unreachable |
| Removals.FreedOffTheBridge | src/session.rs:907-944 | in every run under the rules of media attachment, with removals that may be refused or fail, a port that sat in a conference slot when it was freed had its removal refused, or its setup gave up before its media was ready |
| Freed.EveryPortIsFreed | src/session.rs:736-778 | under the media rules, with callbacks in fine steps and removals that may be refused or fail: once no thread, no session and no removal is left, no cleanup is left either, and every port created was destroyed exactly once, but for exactly those whose removal was reported to have failed, which never were |
| MediaAttachment.SetupsKeepTheirId | src/session.rs:285-294 | no setup is ever replaced, and the media-ready channel is never dropped while a setup waits on it |
| Registrations.StepKeepsOwned | src/session.rs:258-306 | every step keeps each pending entry and each media-ready notifier with a live setup of its call, so neither outlives it |
| Leaks.NothingLeaks | src/session.rs:736-778 | once no thread, session or cleanup is left, every port created was destroyed exactly once, every pool created released exactly once, all registries and the pending setups are empty; and no port was ever destroyed while it sat in a conference slot |
| Leaks.SlotHasNoCleanup | src/sip/callbacks.rs:133-142 | registering a cleanup never overwrites another one |
| Walkthrough.ACallGoesThrough | src/session.rs:127-686 | a run that keeps every rule sets a call up, stores its session, and ends with its port destroyed and its pool released |
| SessionControl.SettledIsARun | src/main.rs:94-115 | running one thread to its end is a run of the machine, so the results about runs apply to the methods below |
| SessionControl.SessionManager.RemovePendingSetup | src/session.rs:718-726 | removes the entry exactly if the generation owns it, and says so |
| SessionControl.SessionManager.CancelPendingSetup | src/session.rs:850-862 | cancels the token of the entry under the id and leaves the entry |
| SessionControl.SessionManager.UnregisterPendingPort | src/sip/callbacks.rs:119-125 | takes the pending port of the id, if any |
| SessionControl.SessionManager.TakeActiveMedia | src/sip/callbacks.rs:128-130 | takes the active media of the id, if any |
| SessionControl.SessionManager.TakePendingCleanup | src/sip/callbacks.rs:145-153 | takes the cleanup of the slot, if any |
| SessionControl.SessionManager.RemoveFromBridge | src/session.rs:753-761 | registers the cleanup, asks for the removal and falls back to a deferred cleanup, as the machine's own steps do |
| SessionControl.SessionManager.CleanupMediaPort | src/session.rs:736-778 | leaves maps, frees and deferred cleanups where the machine's teardown steps leave them, for an owner and for a replaced setup |
| SessionControl.SessionManager.AbortSetup | src/session.rs:694-706 | tells whether the setup still owned its id, and undoes it as the machine does |
| SessionControl.SessionManager.GiveUp | src/session.rs:274-306 | the same with what the callers add: the owner drops its notifier |
| SessionControl.SessionManager.OnCallDisconnected | src/session.rs:865-945 | leaves everything where the main loop's steps for a disconnect leave it: a session torn down, or a setup cancelled |
| SessionControl.SessionManager.Commit | src/session.rs:602-683 | leaves everything where the last steps of a setup leave it: a stored session, or a late cancellation |
| PhraseCache.CacheState.Get | src/audio/tts.rs:33-40 | returns the cached value and moves the key to the back of the deque, in place; a miss changes nothing |
| PhraseCache.CacheState.Insert | src/audio/tts.rs:42-60 | stores the value and moves or appends the key, pushing out the front of a full cache, in place |
| PhraseCache.AgreesWithHistory | src/audio/tts.rs:14-60 | after any calls, the deque is exactly the last 64 keys touched (inserts and hits) by their last touch, without repetition, the map has those keys, and each value is the one last inserted for its key |
| PhraseCache.RecencyFollowsLastPlaces | src/audio/tts.rs:33-40 | what "by their last touch" means: the list is ordered by last places in the history |
| PhraseCache.RecencyIsDistinct | src/audio/tts.rs:14-17 | and lists every key of the history once |
| PhraseCache.CachedWhileRecent | src/audio/tts.rs:53-59 | a key is cached exactly while fewer than 64 other keys were touched after it |
| SingleFlight.OneSynthesisPerKey | src/audio/tts.rs:139-182 | in every interleaving the in-flight table and the running syntheses are one to one, so no key has two |
| SingleFlight.EveryResultIsJustified | src/audio/tts.rs:184-286 | a caller that joined a task gets exactly what that task's synthesis returned, never the closed-channel error, and every successful result, joined or cached, was put in the cache under the caller's key first |
| SingleFlight.CallsGoByWhatTheyAreTold | src/audio/tts.rs:140-182 | a call fails as unavailable exactly if the runtime refused it, after a miss in the cache and in the table; a hit is returned as found; and a call that the runtime accepted, or that found its phrase in the table, waits for that task and returns what it made |
| SingleFlight.TasksAreAccepted | src/audio/tts.rs:151-181 | every synthesis was launched by a call that found nothing cached and nothing running and was accepted |
| SingleFlight.TwoCallersShareOneSynthesis | src/audio/tts.rs:151-182 | a run, for any phrase and any result, in which a second caller joins the first one's task and both return its result |
| CachedPhrases.CacheGoesByItsCalls | src/audio/tts.rs:140-205 | in every interleaving the cache holds the last 64 phrases that a call asked for and found, or that a task put there, by when that happened last, each with the value last put there |
| SingleFlight.NoTaskIsStuck | src/audio/tts.rs:163-181 | every entry of the table has a task that can move, or a caller about to launch it |
| SingleFlight.TasksFinish | src/audio/tts.rs:184-216 | each step of a task takes it further, and the last clears its key |
| Availability.RetryBurst | src/audio/tts.rs:345-365 | a burst recovers exactly if one of four checks answers in time, stops at the first that does, and takes at most 1300 ms |
| Availability.RecoveringMeansRetrying | src/audio/tts.rs:288-343 | in every interleaving the runtime is recovering exactly while a burst runs that nothing has settled since it began |
| Availability.BurstsAreShort | src/audio/tts.rs:333-356 | every burst gets to its last write after at most 4 checks and 1300 ms, and no sooner than 100 ms for each check but the last, a failed one only after all 4, and that write leaves Healthy or Cooldown |
| Availability.CooldownLasts | src/audio/tts.rs:288-343 | after a burst without a healthy check, the runtime refuses new phrases and begins no burst for 300 000 ms, and accepts from then on; after a success, or a burst with a healthy check, it accepts at once; both until the next burst begins, which refuses until it is settled |
| Availability.BurstsGoByTheirChecks | src/audio/tts.rs:345-356 | a burst ends well exactly if its last check was healthy, and otherwise only after four that were not |
| Availability.NoSecondBurst | src/audio/tts.rs:312-335 | while a burst that began alone runs and nothing has succeeded since, it is the only one |
| Availability.SecondBurstNeedsSettling | src/audio/tts.rs:312-335 | a failure begins a burst exactly if something has settled since every running burst began and no cooldown is active |
| Availability.EarlierBurstLetsAnotherBegin | src/audio/tts.rs:337-342 | a concrete run in which a second burst begins during one without any success since it began |
| Hostname.SpokenHostsAreHeard | src/audio/tts.rs:709-742 | a valid hostname is recovered from the words it is spoken as exactly if it has no two hyphens in a row |
| Hostname.SpeechIsUnambiguous | src/audio/tts.rs:731-738 | so no two such hostnames are spoken alike |
| Hostname.HyphensSoundLikeDash | src/audio/tts.rs:731-742 | two valid hostnames, one with hyphens in a row and one with the word for a hyphen, that are spoken alike |
| TransmitGate.RunEncoder | src/audio/bridge.rs:92-152 | for every trace of frames the gate decides each by the window rule, and the queue holds, in order, one packet for each frame that was not decided silent, came out of the encoder and was taken, and no other: a terminator exactly if so decided, numbered by the earlier frames that were not silent and came out of the encoder; it stops at the frame that finds the queue closed |
| TransmitGate.TrafficIsQueueOf | src/audio/bridge.rs:128-152 | the packets of any number of frames are exactly those that should be heard |
| TransmitGate.GateByLastLoud | src/audio/bridge.rs:111-126 | the window rule by distance: voice within 20 frames of the last loud one, a terminator exactly at the 21st, silence otherwise |
| TransmitGate.SpurtsEndOnce | src/audio/bridge.rs:111-126 | a frame is a terminator exactly if it is the first that is not voice after one that is |
| TransmitGate.TerminatorsAreFarApart | src/audio/bridge.rs:111-126 | between two terminators lies a loud frame, with voice from it up to the second |
| TransmitGate.NumbersIncrease | src/audio/bridge.rs:134-152 | numbers on the queue strictly increase, each the count of frames encoded before, and terminators are marked as such |
| TransmitGate.EncodedIsQueuedOrDropped | src/audio/bridge.rs:134-152 | every encoded frame is queued or counted as dropped |
| TransmitGate.MagnitudeAdds | src/audio/bridge.rs:103-108 | what is compared with the threshold is the sum of the absolute values of the samples |
| TransmitGate.SteadyIsLoud | src/audio/bridge.rs:103-109 | a steady level reaches the threshold exactly from 33 of 32767 on, with either sign; so the silent frame sent as a terminator is below it |
| Mixer.MixedDecoder.Tick | src/audio/bridge.rs:194-274 | whatever the order of the speakers, sample i of the frame is the sum of their i-th pending samples and the sound's, or 32767 or -32768 if the sum is above or below; nothing is emitted exactly if there is no source; one frame is taken from each, exactly the stale speakers go, no accumulator overflows with fewer than 65535 speakers, and the frame goes to the ring, counting what that refuses |
| Mixer.MixSaturates | src/audio/bridge.rs:254-256 | each sample of the mix is the 16-bit value nearest to its sum |
| Mixer.PullStops | src/audio/bridge.rs:201-216 | packets are taken only while less than a frame is pending and none was refused, until a frame is pending, none is left or one was refused |
| Mixer.SilentSpeakersGo | src/audio/bridge.rs:218-239 | a tick removes exactly the speakers with nothing queued and nothing pending whose last packet came more than 5000 ms ago |
| Mixer.MixedDecoder.MixSpeakers | src/audio/bridge.rs:200-235 | the loop over the speakers in hash order computes a sum that has no order |
| Mixer.MixedDecoder.Arrive | src/audio/bridge.rs:276-309 | a packet joins its speaker's queue, a full queue loses its oldest, and a new speaker needs a decoder |
| Mixer.MixedDecoder.Fill | src/audio/bridge.rs:201-216 | the inner decode loop ends, and takes packets until a frame is pending, none is left or one is refused |
| Mixer.TotalSplit | src/audio/bridge.rs:228-234 | the sum may be taken in any order |
| Mixer.AccumulatorFits | src/audio/bridge.rs:177-178 | with at most 65535 sources no partial sum overflows 32 bits |
| Mixer.MixedDecoder.SpeakersAreAccounted | src/audio/bridge.rs:194-309 | whatever came and ticked, through removals and new beginnings, the entry of every speaker is its life so far, in which every packet and sample is accounted for, and it knows when the last packet came; a speaker without an entry has nothing left |
| Mixer.LifeIsAccounted | src/audio/bridge.rs:182-309 | over any arrivals and ticks of a speaker, packets arrived are those decoded or dropped, in order, then those queued; samples decoded are those mixed, then those pending; and the queue never exceeds its limit |
| Mixer.PendingStaysShort | src/audio/bridge.rs:178-182 | less than the longest packet is ever pending |
| Mixer.PullConserves | src/audio/bridge.rs:201-216 | decoding takes packets from the front only and adds exactly what they decode to |
| Mixer.RemovalDiscardsNothing | src/audio/bridge.rs:218-239 | a speaker removed as stale had every packet taken and every sample mixed |
| SampleRing.Ring.PushSlice | src/sip/media_port.rs:171-179 | a push takes the prefix that fits, first in first out |
| SampleRing.Ring.PopSlice | src/sip/media_port.rs:206-207 | a pop gives the oldest samples there are |
| AudioPort.Port.PutFrame | src/sip/media_port.rs:155-183 | samples from the caller are accepted up to the ring's capacity and the rest counted as dropped; after the user data is freed, or for other frames, nothing happens |
| AudioPort.Port.GetFrame | src/sip/media_port.rs:187-235 | the caller gets the oldest samples filled up with silence, as audio exactly if there were any, and missing ones are counted |
| AudioPort.Port.OnDestroy | src/sip/media_port.rs:238-248 | frees the user data unless it has been freed, and leaves the port |
| AudioPort.Port.Destroy | src/sip/media_port.rs:131-151 | frees the user data unless `port_on_destroy` has, clears the callbacks and frees the port, which no destructor or callback may use after that |
| WavRepair.NormalizeStreamedWav | src/audio/tts.rs:780-829 | ends with every index in bounds on every byte string, and computes the repair in place on a copy |
| WavRepair.RepairDataChunk | src/audio/tts.rs:792-826 | the walk over the chunks writes the real size into the first data chunk it reaches and nowhere else |
| WavRepair.DataIsRepaired | src/audio/tts.rs:780-829 | if a path of chunks leads from byte 12 to a `data` chunk, each to the next at the even distance its little-endian size asks for, then the file size and that chunk's size are written as little-endian 32-bit words, capped, and nothing else changes |
| WavRepair.OthersKeepTheirBytes | src/audio/tts.rs:780-829 | without such a path only the file size is written; a string that is no RIFF WAVE file is left as it is |
| WavRepair.SizesAreReal | src/audio/tts.rs:788-815 | afterwards the file size and that chunk's size are the real ones, capped at 32 bits |
| WavRepair.OnlySizesChange | src/audio/tts.rs:788-815 | no other byte changes, and a string that is no WAVE file does not change at all |
| WavRepair.RepairKeepsWalk | src/audio/tts.rs:792-826 | the repaired file is a WAVE file in which the walk reaches the same chunk |
| WavRepair.RepairIsIdempotent | src/audio/tts.rs:780-829 | repairing twice is repairing once |
| WavRepair.WithWordReads | src/audio/tts.rs:789-790 | a 32-bit little-endian field written is read back, and nothing else changes |
| Resample.LinearResample | src/audio/tts.rs:871-892 | the loop yields the rounded length, and each output is the interpolation at its position, which is in bounds |
| Resample.PositionsAreInBounds | src/audio/tts.rs:879-886 | every output index reads inside the input, for all lengths and positive rates |
| Resample.OutputIsBetweenNeighbours | src/audio/tts.rs:884-889 | every output lies between the two inputs it falls between |
| Resample.InterpolateWeighs | src/audio/tts.rs:884-889 | it is the two weighted by how near they are, and past the last input that input |
| Resample.LinesAreKept | src/audio/tts.rs:884-889 | samples of a straight line are resampled to points of that line |
| Resample.TimesAreKept | src/audio/tts.rs:879-884 | the position an output is read from stands at the output's own time |
| Resample.LengthIsNearest | src/audio/tts.rs:878-880 | the output is as long as the input, to half a sample, halves upwards |
| Resample.WholeRatioKeepsSamples | src/audio/tts.rs:879-889 | at k times the rate, every k-th output is an input |
| Resample.SoundPositionsAreInBounds | src/audio/sounds.rs:86-93 | every index of a resampled sound reads in bounds |
| Resample.SoundIsBetweenNeighbours | src/audio/sounds.rs:93-96 | every rounded value lies between two neighbouring samples, so it fits 16 bits |
| Resample.SoundWeighs | src/audio/sounds.rs:90-94 | the value before rounding is the two samples weighted by how near they are |
| Resample.SoundIsNearest | src/audio/sounds.rs:88-96 | every sample of a sound is within half a unit of that value |
| Resample.SoundIsLongEnough | src/audio/sounds.rs:82-86 | a sound has the least number of samples that reaches the end of its source |
| Resample.DividedRateKeepsSamples | src/audio/sounds.rs:82-98 | at a rate that divides 48 kHz, every k-th sample of the sound is a sample of the source |
| Debounce.Announce | src/session.rs:411-471 | for every stream and every pattern of timeouts, announces the burst-final items without channels that repeat the last one announced |
| Debounce.AnnouncedAreBurstFinal | src/session.rs:414-443 | announcements are items of the stream, in order, each undebounced, followed by quiet, or the last; and after each such item the channel last announced is its |
| Debounce.NoRepeats | src/session.rs:440-443 | no channel is announced twice in a row, and the last announced is the last final |
| Debounce.EveryBurstIsHeard | src/session.rs:440-443 | right after a burst its final channel is the one last announced |
| Debounce.LastItemIsAnnounced | src/session.rs:429-433 | once the stream has closed, the channel last announced is that of the last item |

## Left out

- SessionControl.SessionManager.OnCallDisconnected: one method call is one uninterrupted run of its thread; interleavings are the machine's, and aliasing between managers does not arise. Writing back the caller's last channel and aborting the session's tasks are left out.
- Orphans.CallCapHolds: rests on pjsua's own bound on ids; the gate alone does not give the cap, since calls admitted together register later.
- Turns.LaterCallsKeepTheirs: covers the steps of setups and of the main loop; a media callback may still publish the port of an earlier call of the id.
- Breaches.BreakingTurnsTakes: says nothing of a later call whose port has already been displaced, which takes a media callback of an earlier call of the id that puts its own port back.
- Removals.FreedOffTheBridge: says nothing of a setup that gives up before its media is ready; its port may be on its way to the bridge, and the code defers its destroy by 250 ms.
- Leaks.NothingLeaks: says nothing of the ports that the 250 ms deferred destroy frees without a removal, which needs a replaced generation or the indeterminate branch; its rules exclude both. A removal that completes with an error abandons its port and pool, as the code does.
- Transcripts.AbortsHaveReasons: the 503 hang-up that follows a failed connection is asked of pjsua, whose answer to it is the environment's `HangUp`.
- Availability.BurstsAreShort: timers are punctual and locks take no time.
- Mixer.MixedDecoder.Tick: a packet carries what its speaker's decoder will make of it, so the decoder's own state is not modelled; the other counters that are only logged are left out.
- TransmitGate.RunEncoder: frames come with their loudness; `Loud` says what that is in exact arithmetic, without the rounding of 32-bit floats.
- Freed.EveryPortIsFreed: says nothing of pools; a pool can be dropped with a port freed while it was pending, or with active media that another callback of the id overwrites.
- Resample.LinearResample: over real numbers, without the rounding of floats; the conversion to and from 16 bits is left out.
- Hostname.SpokenHostsAreHeard: white space is the ASCII kind, all that a valid hostname could bring in.
- Concurrent use of a ring by its two ends (`ringbuf` is taken to be a bounded queue).
- Foreign calls: pjsip, Opus, `hound`, HTTP, TLS, protobuf and the Mumble client answer as the environment pleases.
- A generation counter that wraps around, and panics or tasks aborted from outside.
- Shutdown: the drain of calls and of pending database writes.
- Caller lookup, DTMF navigation, text messages and their HTML clean-up, token affixes and URL parsing.
- Configuration, database and SMS, which would only add easy members.
