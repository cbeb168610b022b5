# VoxTree verification

VoxTree is a push-to-talk voice system. A control plane decides who may speak and who hears, a client asks it before
it opens the microphone, and parsers, encoders and buffers carry data between them. This project models the parts
whose correctness is decided by code, and proves what they are for.

Code that computes values is modelled by functions. Code that changes an object in place is modelled by a class whose
methods carry out the same steps; each method's contract gives the whole new state as a function of the old one, and
the theorems are about that function. Concurrency is modelled as interleaved steps: a section under a mutex is one
atomic step, every call made outside it is a step of its own, and all orders of steps are considered.

| part | modules | main results |
|---|---|---|
| push-to-talk protocol | `VoiceClient`, `AuthorizedVoiceClient`, their `...Lock` classes, `VoiceAnswers`, `AuthorizedAnswers`, `AuthorizedPress`, `AuthorizedOnAir`, `AuthorizedLifecycle`, `EarlyCleanup`, `RegularRun` | audio implies authorisation; one outstanding transmission, never forgotten; no lost wake-up through both clients; what every operation answers, and the scope on air, over all runs |
| transmission control plane | `Domain`, `Routing`, `VoiceGrants`, `WhoHears`, `ControlPlaneStore`, `ControlPlaneRuns`, `ControlPlaneAudit`, `ControlPlaneRights`, `ControlPlaneWitnesses`, `Permissions`, `ControlPlaneLaws`, `RateLimiter` | the two computations of "who hears" agree; store invariants over all runs; exact audit conservation; publishing rights follow active transmissions; who may speak and what each sweep takes, in terms of the stored lists; sliding-window bound |
| versioned views | `Presence`, `Directory` | deltas overlay to the current view over every history; versions follow fingerprints; what a 304 answer means |
| audio admission | `Playback`, `PlaybackEngine`, `PlaybackPriority` | greedy admission is optimal for every prefix of the priority order; who of the stored streams may be left out |
| sample ring | `SampleQueue` | a lock-free ring with wrapping 64-bit positions refines a bounded queue |
| wire formats | `Decimal`, `Utf8`, `JsonText`, `ClientJson`, `ServerJson`, `JsonLaws`, `JsonRoundTrip`, `FlatRoundTrip`, `Tokens` | each end reads what the other prints and refuses what it should; base64url and hash padding are invertible |
| client state | `PttInput`, `PttChords`, `SessionState` | no press is left unreleased; transmitting implies a ready, current connection |

## How the concurrent parts are modelled

`VoiceClient` gives every thread a program counter. A thread may enter `pressPushToTalk`, `releasePushToTalk`,
`connect` or `disconnect` at any time, the transport may report a new connection state between any two steps, waits may
wake spuriously, and the results of transport calls are arbitrary. `AuthorizedVoiceClient` stacks the coordinator on
top: its threads step inside the voice client below while the coordinator's lock is free, and the server's answers are
arbitrary. The `...Lock` classes hold the guarded fields and perform each critical section by assignments.

`ControlPlaneRuns` interleaves commands at every locked section of the store. An activation's grant and the revocation
of an ordinary end are made under the lock and belong to their section; the revocations of forced ends and all audit
records are made outside it and become pending steps, taken in any order and at any later time.

Liveness is stated without a scheduler: a wait is over as soon as the thread responsible for it has had a number of
turns fixed in advance, whatever else happened in between.

## Where the code does not meet the wish

- `endInterruptedTransmission` is public, and the documentation names it as the way to clean up after a transport drop
  (`doks/voice-client.md:124-125`). It looks at nothing but the active transmission, so it can end one whose press is
  still under way. What then fails, and exactly when:
  - The microphone can open after the server has ended its transmission. This can follow exactly if, at the call, a
    granted press stands before its microphone start (`CleanKeepsAudioExactly`); `EarlyCleanup.AudioAfterEnd` is such a
    run from the start. In runs without such a call audio implies authorisation (`MicrophoneOnlyWhileAuthorized`).
  - A transmission can be ended with its microphone open: exactly if it is open at the call (`CleanIsSilentExactly`,
    `EarlyCleanup.OpenAtEnd`). In runs without such a call the microphone is closed at every end
    (`MicrophoneClosedAtEnds`).
  - The release that follows can wait for ever. The call takes an active publication its transmission, the coordinator
    stays active, and the next release begins to wait for a generation nobody owns; nothing else ever strands one
    (`StrandedExactlyByHollowRelease`, `StrandedForever`). The documented use is such a run: after a transport drop and
    the clean-up no audio is harmed, but the next release never returns (`EarlyCleanup.ReleaseAfterDropWaitsForever`).
    In runs that call it only while publication is idle, no publication loses its transmission and no release is
    stranded (`NoReleaseIsStranded`).
  - Everything else (`RunInv`, one outstanding transmission that is never forgotten, a clean disconnect, release of all
    waiters of an owned generation) holds in every run, whenever it is called.
- A release that waits for another one returns the last result there is. If it wakes only while the next press is
  starting, that result has been reset, and it is told success even if its own stop broke or the server refused to end
  its transmission (`VoiceAnswers.LateWaiterIsToldSuccess`, `AuthorizedAnswers.LateWaiterIsToldSuccess`). Until the next
  press begins it is told what happened to its own generation (`WaiterIsTold` in both modules).
- The voice client relies on the transport to report a disconnection before it answers. Over one that does not, a
  disconnect that overtakes a press leaves the publication active without scope or connection
  (`VoiceAnswers.OvertakenPublication`). Only that, or a connect that fails after the transport has reported success, does
  so (`OnAirExactly`). Under the coordinator, which lets no press begin while it disconnects, an active publication always
  names its scope (`AuthorizedOnAir.OnAirIsOpened`).
- The directory fingerprint delimits values but not lists. Two plausible directories given to one reader can share a
  fingerprint (`FingerprintsCollide`), and that reader is then told "not modified" about a body that changed
  (`NotModifiedMayBeWrong`). Equal fingerprints mean equal content exactly when the lists have the same lengths
  (`FingerprintDetermines`).
- A speaker limit holds over all runs exactly if the limit carried by the stored contexts is no larger
  (`SpeakerLimitHoldsExactly`). For every limit that one stored context carries, others with a larger one, or none, let
  its node exceed it (`ControlPlaneWitnesses.UnsharedLimitIsExceeded`).
- The rate bound needs call times that do not decrease, and the control plane reads the wall clock
  (`libs/application/include/hvc/application/control_plane.hpp:20`), which may go back. A limit of one survives every
  clock and no other limit does (`AnyClockIsBoundedExactly`): for every larger limit and every step back, however
  small, `BackwardClockExceedsLimit` gives a run that exceeds it.
- A revocation delivered late can silence a newer transmission of the same player in the same room
  (`ControlPlaneWitnesses.LateRevocationSilences` is a run from the start). An active transmission has its right for
  good exactly if no revocation of that right was pending when it began (`ActiveMayPublish`, `ShadowedAtStart`);
  otherwise it has lost it or a pending revocation takes it (`StaleRevocationSilences`).

## Model

| member | source | states |
|---|---|---|
| VoiceClient.NextInv | libs/client/src/voice_client.cpp:104-220 | Every step of every thread, call, transport report and spurious wake-up keeps: in a transition exactly one in-flight thread owns the current generation, waiters have an owner, and the microphone is open only inside a publication unless a stop broke |
| VoiceClient.RunInv | libs/client/src/voice_client.cpp:77-220 | The same over whole runs of presses, releases, connects and disconnects by any number of threads |
| VoiceClient.ReportInv | libs/client/src/voice_client.cpp:322-348 | A transport report at any moment keeps that invariant |
| VoiceClient.StepMicrophone | libs/client/src/voice_client.cpp:126-220 | Unless silencing it once failed, no thread's step leaves the microphone open in an idle client, before its start or after its stop |
| VoiceClient.OthersOnlyWake | libs/client/src/voice_client.cpp:187-203 | One thread's step leaves every other thread in place, except that sleeping releasers may be woken |
| VoiceClient.OwnerAdvances | libs/client/src/voice_client.cpp:126-220 | The owner's own step keeps the generation and either shortens what is left for it or ends the transition, in idle if it was stopping |
| VoiceClient.OthersKeepOwner | libs/client/src/voice_client.cpp:126-220 | Whatever else happens, the owner keeps its position and its generation stays in transition, so every generation guard it meets succeeds |
| VoiceClient.SleeperHasOwner | libs/client/src/voice_client.cpp:187-203 | A sleeping releaser waits for the stopping current generation, which has exactly one owner |
| VoiceClient.OwnerRemainingShrinks | libs/client/src/voice_client.cpp:126-220 | While a transition lasts, the remaining work shrinks at each turn of its owner and at no other step changes |
| VoiceClient.WaitOverStays | libs/client/src/voice_client.cpp:191-203 | A wait that is over stays over, and generations never go back |
| VoiceClient.WaitersAreReleased | libs/client/src/voice_client.cpp:177-220 | No lost wake-up: once the owner of a stopping generation has had the turns it needs, in any interleaving, the wait for it is over and nobody sleeps on it |
| VoiceAnswers.NamedScopeIsLatest | libs/client/src/voice_client.cpp:104-226 | In every run, whatever scope the client names as transmitting is the one its microphone was started for last |
| VoiceAnswers.OnAirExactly | libs/client/src/voice_client.cpp:77-102 | An active publication that is connected and names its scope stays so exactly unless a disconnect ends, or a connect fails, while it is active |
| VoiceAnswers.ActiveScopeIsLatest | libs/client/src/voice_client.cpp:126-226 | In every run without such an event, an active publication is connected and names the scope of the latest microphone start |
| VoiceAnswers.OvertakenPublication | libs/client/src/voice_client.cpp:94-102 | A run from the start, over a transport that does not report its disconnection before it answers, that ends active without scope and connection |
| VoiceAnswers.PressIsAnswered | libs/client/src/voice_client.cpp:104-175 | However it is interleaved, a press answers the failure of its start, else the failure of taking the microphone back, else success or that it was refused or cancelled |
| VoiceAnswers.PressSucceedsExactly | libs/client/src/voice_client.cpp:126-141 | A press answers success exactly in the step that makes its own, connected publication active in its own scope |
| VoiceAnswers.PressIsConfirmedExactly | libs/client/src/voice_client.cpp:126-143 | A started press is confirmed exactly if neither a release nor a lost connection came first, and is stopped otherwise |
| VoiceAnswers.PressWithdraws | libs/client/src/voice_client.cpp:146-162 | A press that withdraws leaves the client idle and tells waiting releases how taking the microphone back went |
| VoiceAnswers.ReleaseIsAnswered | libs/client/src/voice_client.cpp:77-220 | The release that stops the microphone answers as the transport did; one made by disconnect keeps it from going on only if it broke |
| VoiceAnswers.ReleaseRecordsAnswer | libs/client/src/voice_client.cpp:208-219 | When it is done the client is idle and names no scope, and its answer stands as that of the last stop |
| VoiceAnswers.RestStaysRun | libs/client/src/voice_client.cpp:104-124 | That answer stands, and the client stays idle, until the next press begins |
| VoiceAnswers.WaiterIsTold | libs/client/src/voice_client.cpp:187-203 | In every run, a release that waited for a generation and returns before the next press is told how that generation was stopped |
| VoiceAnswers.LateWaiterIsToldSuccess | libs/client/src/voice_client.cpp:120-203 | A release that wakes only while the next press is starting is told success, however its own stop ended |
| VoiceAnswers.ConnectIsAnswered | libs/client/src/voice_client.cpp:49-75 | A connect answers as the transport did, or that the client was not disconnected |
| VoiceClientLock.Client.BeginPress | libs/client/src/voice_client.cpp:106-124 | The first section of a press does to the fields what the protocol's section does: refuse unless connected and idle, else begin a new generation |
| VoiceClientLock.Client.CheckPress | libs/client/src/voice_client.cpp:127-141 | After a microphone start the publication becomes active, in the scope of this press, exactly if its generation is still starting on a connected transport; otherwise the press goes on to take the microphone back; that the scope on air is the started one is `VoiceAnswers.ActiveScopeIsLatest` |
| VoiceClientLock.Client.FinishPress | libs/client/src/voice_client.cpp:153-162 | The closing section of a failed press returns to idle, records the stop and notifies |
| VoiceClientLock.Client.BeginRelease | libs/client/src/voice_client.cpp:179-206 | A release stops an active publication, cancels a starting one and waits, joins a stopping one, or refuses |
| VoiceClientLock.Client.WakeRelease | libs/client/src/voice_client.cpp:191-203 | A woken releaser goes on exactly if its generation is over |
| VoiceClientLock.Client.FinishRelease | libs/client/src/voice_client.cpp:209-218 | The releaser that stopped the microphone returns to idle, records the stop and notifies |
| VoiceClientLock.Client.FinishDisconnect | libs/client/src/voice_client.cpp:95-101 | Disconnecting ends in the disconnected state |
| VoiceClientLock.Client.OnTransportStateChanged | libs/client/src/voice_client.cpp:322-348 | A report of any state but connected returns an active publication to idle and notifies, and turns a starting one to stopping |
| AuthorizedVoiceClient.NextInv | libs/client/src/authorized_voice_client.cpp:213-468 | The stacked invariant (owners, grants, ends, wake-ups, both clients' fields) holds after every step of every thread, server answer and transport report, `endInterruptedTransmission` at any moment included |
| AuthorizedVoiceClient.RunInv | libs/client/src/authorized_voice_client.cpp:56-468 | The same over whole runs, including connect, refresh and disconnect |
| AuthorizedVoiceClient.MicrophoneOnlyWhileAuthorized | libs/client/src/authorized_voice_client.cpp:213-367 | Audio implies authorisation: in every run in which nobody ends a transmission out of turn while its press has yet to open the microphone, each microphone start follows the server's start of the same transmission for the same scope and precedes every request to end it |
| AuthorizedVoiceClient.MicrophoneOnlyAfterGrant | libs/client/src/authorized_voice_client.cpp:239-291 | In every run whatsoever, each microphone start follows the server's start of its transmission for its scope |
| AuthorizedVoiceClient.CleanKeepsAudioExactly | libs/client/src/authorized_voice_client.cpp:454-468 | After an end out of turn microphone starts stay authorised, in all runs that take the same care from there on, exactly if no press stood before its microphone start at the call |
| EarlyCleanup.AudioAfterEnd | libs/client/src/authorized_voice_client.cpp:291-468 | A run from the start in which the microphone of a transmission opens after the server has ended it |
| AuthorizedVoiceClient.MicrophoneClosedAtEnds | libs/client/src/authorized_voice_client.cpp:271-468 | In every run in which ends out of turn find the microphone closed, it is closed whenever an end is requested, if no transport stop has broken |
| AuthorizedVoiceClient.CleanIsSilentExactly | libs/client/src/authorized_voice_client.cpp:454-468 | After an end out of turn all ends are asked for with the microphone closed, in all runs that take the same care from there on, exactly if it was closed at the call |
| EarlyCleanup.OpenAtEnd | libs/client/src/authorized_voice_client.cpp:454-468 | A run from the start in which a transmission is ended with its microphone open |
| AuthorizedVoiceClient.OneOutstandingTransmission | libs/client/src/authorized_voice_client.cpp:233-468 | In every run, ends out of turn included, at most one transmission is outstanding at the server, and it is stored as active or carried by a thread until an end succeeds |
| AuthorizedVoiceClient.DisconnectedIsClean | libs/client/src/authorized_voice_client.cpp:98-131 | In every run, after a disconnect has gone through, nothing is outstanding, both clients are idle and the microphone is closed unless a stop broke |
| AuthorizedVoiceClient.EndsAreGranted | libs/client/src/authorized_voice_client.cpp:271-287 | Only transmissions the server has started are asked to end, or end |
| AuthorizedVoiceClient.PcKeeps | libs/client/src/authorized_voice_client.cpp:252-298 | No step drops a started transmission before the server has ended it |
| AuthorizedVoiceClient.CarrierOwns | libs/client/src/authorized_voice_client.cpp:252-264 | A transmission not yet stored is carried only by the one owner of the generation in transition, and none is active then |
| AuthorizedVoiceClient.SleeperHasOwner | libs/client/src/authorized_voice_client.cpp:391-424 | A sleeping releaser waits for the stopping current generation, and some thread owns it exactly if it is not stranded |
| AuthorizedVoiceClient.StoppingProgresses | libs/client/src/authorized_voice_client.cpp:369-451 | A stopping generation keeps its number; its work never grows, and shrinks with each turn of the responsible thread, be it the owner or the thread it waits for below |
| AuthorizedVoiceClient.ResponsibleIsInVoice | libs/client/src/authorized_voice_client.cpp:435-436 | The thread a generation's progress depends on is its owner or one inside the voice client |
| AuthorizedVoiceClient.WaitOverStays | libs/client/src/authorized_voice_client.cpp:406-424 | A wait that is over stays over |
| AuthorizedVoiceClient.WaitersAreReleased | libs/client/src/authorized_voice_client.cpp:369-451 | No lost wake-up through both stacked clients: after the turns its work needs, the wait for a stopping generation is over and nobody sleeps on it |
| AuthorizedAnswers.ReleaseIsAnswered | libs/client/src/authorized_voice_client.cpp:426-451 | In every run, a release of an active transmission asks the server once for its end and answers success exactly if the server ended it and the voice client's own release succeeded |
| AuthorizedAnswers.ReleaseRecordsAnswer | libs/client/src/authorized_voice_client.cpp:438-451 | Its last section leaves the publication idle with that answer recorded, forgets the transmission exactly if it ended, and lets a disconnect or refresh go on exactly if all was well |
| AuthorizedAnswers.SuspendedReleaseIsAnswered | libs/client/src/authorized_voice_client.cpp:98-170 | A disconnect or refresh made during a publication answers success only if the release it began with did |
| AuthorizedAnswers.RestStaysRun | libs/client/src/authorized_voice_client.cpp:213-237 | The recorded answer stands until the next press begins |
| AuthorizedAnswers.WaiterIsTold | libs/client/src/authorized_voice_client.cpp:382-425 | In every run, a release that waited for a generation and returns before the next press succeeds exactly if that generation ended well and its own cancelling of the start, if any, did too |
| AuthorizedAnswers.LateWaiterIsToldSuccess | libs/client/src/authorized_voice_client.cpp:232-425 | A release that wakes only while the next press is starting is told success, even if the server refused to end its transmission |
| AuthorizedPress.PressIsAnswered | libs/client/src/authorized_voice_client.cpp:213-367 | In every run, a press that answers success was granted its scope, opened the microphone and did nothing else; one that fails got nothing, or last of all asked the server to end what it got |
| AuthorizedPress.PressBeginsExactly | libs/client/src/authorized_voice_client.cpp:215-239 | A press goes on exactly if enabled, connected and with nothing under way, and asks the server at the version of the stored membership |
| AuthorizedPress.PressSucceedsExactly | libs/client/src/authorized_voice_client.cpp:335-345 | A press answers success exactly in the step that makes the publication active, which a release before it prevents |
| AuthorizedPress.WithdrawnPressFails | libs/client/src/authorized_voice_client.cpp:266-367 | A press that takes its transmission back fails, and tells the releases waiting for it whether the server ended it |
| AuthorizedPress.CleanIsAnswered | libs/client/src/authorized_voice_client.cpp:454-468 | Ending an interrupted transmission answers success exactly if none is left |
| AuthorizedOnAir.OnAirIsOpened | libs/client/src/authorized_voice_client.cpp:213-468 | In every run, whenever the voice client below is active it names a scope, and the microphone was opened in that scope for the transmission that is active or that a thread confirms or ends |
| AuthorizedOnAir.VersionsNeverFall | libs/client/src/authorized_voice_client.cpp:133-211 | In every run, until it disconnects the client never goes back to an older membership, and a press asks at exactly the stored version |
| AuthorizedOnAir.RefreshIsAnswered | libs/client/src/authorized_voice_client.cpp:146-175 | A fetched membership that is older is refused, an equal one is fine, a newer one is taken up only with grants of its version |
| AuthorizedLifecycle.SuspensionIsAnswered | libs/client/src/authorized_voice_client.cpp:98-211 | In every run, a disconnect succeeds exactly if the voice client's did, and a refresh exactly if the voice client was closed and opened again |
| AuthorizedLifecycle.ConnectIsAnswered | libs/client/src/authorized_voice_client.cpp:56-96 | In every run, a connect succeeds exactly if the voice client's did |
| RegularRun.PressGoesThrough | libs/client/src/authorized_voice_client.cpp:213-345 | A run from the start in which a press answers success with the microphone open in its scope |
| RegularRun.ReleaseGoesThrough | libs/client/src/authorized_voice_client.cpp:369-451 | Its continuation in which the release answers success and leaves nothing outstanding or open |
| AuthorizedVoiceClient.CleanIsRightExactlyWhenIdle | libs/client/src/authorized_voice_client.cpp:454-468 | Ending an interrupted transmission leaves every publication and owner its transmission exactly if they had it and publication is idle or nothing is active |
| AuthorizedVoiceClient.EarlyCleanHollows | libs/client/src/authorized_voice_client.cpp:454-468 | Called during an active publication it leaves the publication without its transmission |
| AuthorizedVoiceClient.HollowReleaseStrands | libs/client/src/authorized_voice_client.cpp:391-424 | The next release then begins to wait for a generation no thread owns |
| AuthorizedVoiceClient.StrandedExactlyByHollowRelease | libs/client/src/authorized_voice_client.cpp:369-425 | In every run a generation becomes stranded, stopping without an owner, exactly by the release of an active publication whose transmission is gone |
| AuthorizedVoiceClient.StrandedForever | libs/client/src/authorized_voice_client.cpp:391-424 | No later run of steps ends that wait |
| EarlyCleanup.ReleaseAfterDropWaitsForever | libs/client/src/authorized_voice_client.cpp:391-468 | A run from the start through a transport drop, the clean-up documented for it and a release that no continuation of the run ever ends, with no audio harmed |
| AuthorizedVoiceClient.KeptRun | libs/client/src/authorized_voice_client.cpp:56-468 | Runs whose ends out of turn find publication idle keep every publication its transmission and every stopping generation its owner |
| AuthorizedVoiceClient.NoReleaseIsStranded | libs/client/src/authorized_voice_client.cpp:369-451 | From the start, no such run comes to a publication without its transmission or to a wait that nobody ends |
| AuthorizedVoiceClientLock.Coordinator.BeginPress | libs/client/src/authorized_voice_client.cpp:217-237 | The first section of an authorised press refuses or begins a new generation, as the protocol's section |
| AuthorizedVoiceClientLock.Coordinator.StorePress | libs/client/src/authorized_voice_client.cpp:252-264 | A granted transmission is stored; a refusal returns to idle and notifies; a cancelled press goes to end it |
| AuthorizedVoiceClientLock.Coordinator.Withdraw | libs/client/src/authorized_voice_client.cpp:271-287 | A withdrawn press forgets its transmission only if the server ended it |
| AuthorizedVoiceClientLock.Coordinator.VoiceDone | libs/client/src/authorized_voice_client.cpp:293-298 | The section after the voice client's press clears the mark that one is under way and goes on to confirm or to roll back |
| AuthorizedVoiceClientLock.Coordinator.Confirm | libs/client/src/authorized_voice_client.cpp:336-345 | A press that opened the microphone becomes active unless it was cancelled meanwhile |
| AuthorizedVoiceClientLock.Coordinator.BeginRelease | libs/client/src/authorized_voice_client.cpp:374-401 | A release ends an active publication, cancels a starting one, or waits for a stopping one |
| AuthorizedVoiceClientLock.Coordinator.WakeRelease | libs/client/src/authorized_voice_client.cpp:406-424 | A woken releaser goes on exactly if its generation is over |
| AuthorizedVoiceClientLock.Coordinator.FinishRelease | libs/client/src/authorized_voice_client.cpp:438-450 | The releaser forgets the transmission only if it ended, returns to idle, records its answer and notifies; that the answer is success exactly if both sides succeeded is `AuthorizedAnswers.ReleaseIsAnswered` |
| AuthorizedVoiceClientLock.Coordinator.EndInterrupted | libs/client/src/authorized_voice_client.cpp:454-468 | Ending an interrupted transmission clears it exactly when the server ended it |
| AuthorizedVoiceClientLock.Coordinator.ForgetMembership | libs/client/src/authorized_voice_client.cpp:121-130 | A disconnect forgets the membership only if the voice client disconnected |
| Domain.RequireUnique | libs/domain/src/model.cpp:11-25 | The pairwise comparison succeeds exactly for distinct identifiers |
| Domain.CreateHierarchy | libs/domain/src/model.cpp:33-77 | A hierarchy is accepted exactly if its scopes are named and distinct, its nodes are distinct and every parent exists |
| Domain.CreateSnapshot | libs/domain/src/model.cpp:133-163 | A snapshot is created exactly from a positive version, distinct players and valid hierarchy paths; it is sorted and holds the same members |
| Domain.SortSorts | libs/domain/src/model.cpp:160-162 | Memberships of distinct players come out strictly ordered by player |
| Domain.SortKeeps | libs/domain/src/model.cpp:160-162 | Sorting keeps the memberships as a multiset |
| Domain.LowerBoundSplits | libs/domain/src/model.cpp:180-185 | Halving ends at the first membership that is not before the player |
| Domain.FindIsMembership | libs/domain/src/model.cpp:180-185 | A lookup gives a membership exactly if it is in the snapshot and is that player's |
| Domain.NodeDeterminesAncestors | libs/domain/src/model.cpp:147-158 | On valid paths a team determines its specialization and that its group |
| Domain.ValidExactly | libs/domain/src/model.cpp:33-77 | A hierarchy is valid exactly if every specialization names a listed group and every team a listed specialization, identifiers and scopes are unique and scopes are named |
| Domain.TransmitIsListed | libs/domain/src/model.cpp:198-204 | A scope is open for transmitting exactly if some role in force for the member lists it for transmitting |
| Domain.ReceiveIsListed | libs/domain/src/model.cpp:206-212 | A scope is open for receiving exactly if some role in force lists it for receiving |
| Text.LessAtFirstDifference | libs/domain/src/model.cpp:160-162 | One identifier comes before another exactly if it ends first or has the smaller character where they first differ |
| Routing.Resolve | libs/domain/src/routing.cpp:41-92 | A request is rejected with the first obstacle in its way, and accepted exactly if there is none, by a role that lists the scope for transmitting and with the receiving members as recipients; the obstacles' exact conditions are `Permissions.RequestIsJudged` |
| Routing.RecipientsAreReceivers | libs/domain/src/routing.cpp:79-89 | A player is a recipient exactly if a membership of that player receives the scope from this sender |
| Routing.RecipientsAreDistinct | libs/domain/src/routing.cpp:79-89 | No recipient is listed twice |
| Routing.ScopeIsNode | libs/domain/src/routing.cpp:8-24 | On valid paths, sharing the whole ancestry up to a scope is sharing the node at it |
| Permissions.RequestIsJudged | libs/domain/src/routing.cpp:41-76 | On a valid snapshot each error has its exact condition in terms of version, membership, group, scope, sanctions and role lists |
| Permissions.AcceptedExactly | libs/domain/src/routing.cpp:41-76 | Accepted exactly for a connected, unsanctioned member of an active group with a role in force that lists the scope for transmitting |
| Permissions.RecipientExactly | libs/domain/src/routing.cpp:78-89 | A player is a recipient exactly if it is connected, may receive, sits with the sender, has not blocked it and a role in force lists the scope for receiving |
| VoiceGrants.Derive | libs/application/src/control_plane.cpp:23-77 | A grant is refused with the first obstacle; otherwise it holds exactly the scopes of the hierarchy that the roles and the member's own voice permissions leave open (their role lists are written out in `Permissions.ClaimsExactly`) and expires no later than session and lifetime allow |
| VoiceGrants.RoomNamesAreInjective | libs/livekit/src/livekit_token.cpp:186-220 | Equal room names mean equal scope and node |
| VoiceGrants.Issue | libs/livekit/src/livekit_token.cpp:259-293 | Exactly the open scopes get a room grant, once each, for the claims' room, subscribing exactly if the scope may be received |
| Permissions.ClaimsExactly | libs/application/src/control_plane.cpp:55-76 | Claims name a scope for transmitting, or receiving, exactly if the hierarchy has it and the member's sanctions and role lists allow it; its rooms are those of its nodes |
| Permissions.GrantIsJudged | libs/application/src/control_plane.cpp:23-54 | A grant is refused exactly for the first of: unknown session, other device, expired session, no membership, not a member, not connected |
| WhoHears.WhoHears | libs/domain/src/routing.cpp:41-92 | For an accepted start, a player with grants is a recipient exactly if those grants listen in the room the sender publishes in and the player has not blocked the sender |
| WhoHears.UngrantedHearNothing | libs/application/src/control_plane.cpp:23-77 | A player for whom no grant can be derived is no recipient either |
| WhoHears.SenderJoinsItsRoom | libs/livekit/src/livekit_token.cpp:207-293 | An accepted sender's grants let it transmit at the scope and join the very room it publishes in |
| WhoHears.ListensExactly | libs/livekit/src/livekit_token.cpp:186-199 | Grants listen in a node's room exactly if they may receive at its scope and the player sits at that node |
| WhoHears.HearsOverServer | libs/application/src/control_plane.cpp:55-76 | The whole path of derivation, issue and resolution gives the same answer from either side |
| ControlPlaneStore.ActivateKeepsInv | libs/application/src/in_memory_control_plane.cpp:219-311 | Activation keeps: each transmission under its own id, one per sender, current with the sender's membership version and node, its session present |
| ControlPlaneStore.UpdateKeepsInv | libs/application/src/in_memory_control_plane.cpp:135-177 | A membership change keeps that invariant by ending the player's transmissions |
| ControlPlaneStore.RemoveMembershipKeepsInv | libs/application/src/in_memory_control_plane.cpp:189-210 | So does removing a membership |
| ControlPlaneStore.RemoveSessionKeepsInv | libs/application/src/in_memory_control_plane.cpp:106-126 | So does removing a session |
| ControlPlaneStore.SpeakersBesideAreSpeakers | libs/application/src/in_memory_control_plane.cpp:247-276 | Counting speakers through current memberships, as activation does, counts the transmissions stored for the node |
| ControlPlaneStore.ActivationFits | libs/application/src/in_memory_control_plane.cpp:219-311 | An activation adds one speaker to its node, within the limit of the sender's own hierarchy, and touches no other node |
| ControlPlaneStore.ActivateKeepsWithin | libs/application/src/in_memory_control_plane.cpp:247-276 | With no stored context allowing more than given limits, activation keeps every node within them |
| ControlPlaneStore.InMemoryStore.Activate | libs/application/src/in_memory_control_plane.cpp:219-311 | The method leaves exactly the store and result of the activation section, with the same order of refusals |
| ControlPlaneStore.InMemoryStore.CountSpeakers | libs/application/src/in_memory_control_plane.cpp:249-270 | The counting loop gives the number of other active speakers at the member's node |
| ControlPlaneStore.InMemoryStore.IsTransmitting | libs/application/src/in_memory_control_plane.cpp:278-286 | The scan finds a transmission of the player exactly if there is one |
| ControlPlaneStore.InMemoryStore.End | libs/application/src/in_memory_control_plane.cpp:313-341 | Ending removes just that transmission for its own session and device, or changes nothing and names the obstacle |
| ControlPlaneStore.InMemoryStore.Interrupt | libs/application/src/in_memory_control_plane.cpp:343-364 | Interrupting removes just that transmission, or reports that it is not there |
| ControlPlaneStore.InMemoryStore.ExpireTimedOut | libs/application/src/in_memory_control_plane.cpp:366-390 | Expiry removes exactly what has lasted the maximum and lists each such transmission once; no active one that old is left, and every younger one is as it was and not listed |
| ControlPlaneStore.InMemoryStore.InterruptForPlayer | libs/application/src/in_memory_control_plane.cpp:441-460 | Exactly the player's transmissions go, each listed once |
| ControlPlaneStore.InMemoryStore.InterruptForSession | libs/application/src/in_memory_control_plane.cpp:462-481 | Exactly the session's transmissions go, each listed once |
| ControlPlaneStore.InMemoryStore.UpdateMembership | libs/application/src/in_memory_control_plane.cpp:135-177 | A newer context that contains the player replaces the old one and ends exactly the player's transmissions; any other is refused and changes nothing |
| ControlPlaneStore.InMemoryStore.RemoveMembership | libs/application/src/in_memory_control_plane.cpp:189-210 | The membership and exactly the player's transmissions go |
| ControlPlaneStore.InMemoryStore.RemoveSession | libs/application/src/in_memory_control_plane.cpp:106-126 | The session and exactly its transmissions go; an unknown session changes nothing |
| ControlPlaneRuns.StoreNext | libs/application/src/control_plane.cpp:612-752 | Every step of every command keeps the store's invariant |
| ControlPlaneRuns.StoreRun | libs/application/src/control_plane.cpp:612-752 | In every reachable state of service and store the invariant holds and transmission ids stay fresh |
| ControlPlaneLaws.ExpiryTakesTheOld | libs/application/src/in_memory_control_plane.cpp:366-390 | Expiry interrupts exactly the transmissions that have lasted the maximum; the younger stay as they were and unlisted, and nothing that old is left |
| ControlPlaneLaws.RemovedSessionTakesItsOwn | libs/application/src/in_memory_control_plane.cpp:106-126 | Removing a session interrupts exactly the transmissions started in it |
| ControlPlaneLaws.UpdateTakesThePlayers | libs/application/src/in_memory_control_plane.cpp:135-177 | A membership update is taken up exactly if the player is a member of a newer snapshot; it then interrupts exactly the player's transmissions, with the reason of the change |
| ControlPlaneLaws.RemovedMembershipTakesThePlayers | libs/application/src/in_memory_control_plane.cpp:189-210 | Removing a membership interrupts exactly the player's transmissions |
| ControlPlaneLaws.ActivationNeedsStanding | libs/application/src/in_memory_control_plane.cpp:219-246 | A start is stopped first by a session that is not the sender's, on another device or expired, then by a membership of another version or without the scope, and by nothing else before that |
| ControlPlaneLaws.ActivationIsJudged | libs/application/src/in_memory_control_plane.cpp:247-311 | Then exactly a full node, another transmission of the sender or a used id stop it; what is stored is the authorisation, its session, device, time, node and right to subscribe |
| ControlPlaneLaws.StartIsResolved | libs/application/src/control_plane.cpp:431-470 | A start goes on exactly if the stored membership lets its player speak in the scope at the version it names, and then for that player, scope and version |
| ControlPlaneLaws.StartAddressesReceivers | libs/application/src/control_plane.cpp:459-470 | It addresses exactly the connected members beside the sender whom a role lets receive there |
| ControlPlaneLaws.HaltIsJudged | libs/application/src/in_memory_control_plane.cpp:313-364 | An end is accepted only from the session and device that started the transmission, a moderation for any active one; just that transmission and its right go |
| ControlPlaneAudit.AuditConservation | libs/application/src/control_plane.cpp:612-752 | When all events are recorded, a transmission that began has exactly one start event and, exactly if it is no longer active, exactly one terminal event; a rejected command has exactly one rejection event |
| ControlPlaneAudit.AuditRun | libs/application/src/in_memory_control_plane.cpp:313-508 | The same balance, counting events still to be recorded, holds at every moment of every run, whichever way a transmission stops |
| ControlPlaneAudit.AuditedNext | libs/application/src/control_plane.cpp:248-362 | Every single step keeps that balance |
| ControlPlaneAudit.RejectionChangesNothing | libs/application/src/control_plane.cpp:612-739 | A command that is turned away leaves store and publishing rights as they were |
| ControlPlaneAudit.InterruptionsCount | libs/application/src/in_memory_control_plane.cpp:483-508 | A forced end records one interruption for each transmission that goes |
| ControlPlaneAudit.RecordingKeepsTotal | libs/application/src/in_memory_control_plane.cpp:483-508 | Recording an event moves it to the log and loses none |
| ControlPlaneRights.PublishesOnlyWhileActive | libs/livekit/src/livekit_token.cpp:301-348 | In every run a player may publish in a room only with an active, current transmission for that room, or while the revocation of an ended one is still pending |
| ControlPlaneRights.ActiveMayPublish | libs/application/src/in_memory_control_plane.cpp:304-309 | In every run, an active transmission may publish in its room, with no revocation of that right pending, exactly if none was pending when it began |
| ControlPlaneRights.StaleRevocationSilences | libs/livekit/src/livekit_token.cpp:320-334 | In every run, a transmission that began while such a revocation was pending and still may publish loses its right to a pending revocation |
| ControlPlaneRights.ShadowedAtStart | libs/application/src/in_memory_control_plane.cpp:304-309 | Whether such a revocation was pending is decided when a transmission begins and never changes |
| ControlPlaneWitnesses.LateRevocationSilences | libs/application/src/in_memory_control_plane.cpp:106-126 | A run from the start (start, session removed, session back, start again, revocation delivered) that leaves the second transmission active without its right |
| ControlPlaneRights.QuietRightsAreActive | libs/livekit/src/livekit_token.cpp:320-334 | With every revocation done, rights belong to active transmissions only |
| ControlPlaneRights.RightsRun | libs/application/src/in_memory_control_plane.cpp:106-177 | Grants and revocations stay matched to transmissions over every run, grant and revocation naming the same room |
| ControlPlaneRights.SpeakerLimitHolds | libs/application/src/in_memory_control_plane.cpp:247-276 | In every run in which no stored context allows more than given limits, no node has more speakers than they allow |
| ControlPlaneWitnesses.SpeakerLimitHoldsExactly | libs/application/src/in_memory_control_plane.cpp:247-276 | At every scope, speakers stay within a limit in all runs exactly if the limit the stored contexts carry is no larger |
| ControlPlaneWitnesses.LargerLimitExceeds | libs/application/src/in_memory_control_plane.cpp:247-276 | For every limit there is a run, all of whose contexts carry a given larger one or none, in which a node exceeds it |
| ControlPlaneWitnesses.UnsharedLimitIsExceeded | libs/application/src/in_memory_control_plane.cpp:247-276 | For every limit that a stored context carries there is a run in which others, carrying a larger one or none, let its node exceed it |
| ControlPlaneWitnesses.StartGoesThrough | libs/application/src/control_plane.cpp:612-655 | From any state, a start command that meets no obstacle goes through its sections and leaves exactly one more transmission and its right |
| RateLimiter.Limiter.AllowRequest | libs/application/src/in_memory_control_plane.cpp:544-561 | The method's deque operations give exactly the histories and verdict of the specification |
| RateLimiter.DiscardCutsOld | libs/application/src/in_memory_control_plane.cpp:8-16 | Discarding cuts off a front of old times and stops at the first recent one |
| RateLimiter.AllowTouches | libs/application/src/in_memory_control_plane.cpp:544-561 | A call affects only its own player's requests for its own action, and is allowed exactly if fewer than the limit are recent |
| RateLimiter.NoWindowExceedsLimit | libs/application/src/in_memory_control_plane.cpp:544-561 | In every run with nondecreasing times, every half-open window anywhere holds at most the limit, per player and action |
| RateLimiter.RefusedExactlyWhenFull | libs/application/src/in_memory_control_plane.cpp:544-561 | A request is refused exactly if the window ending with it already holds the limit |
| RateLimiter.SingleNeedsNoClock | libs/application/src/in_memory_control_plane.cpp:544-561 | A limit of one request per window is kept in every run, in whatever order the times come |
| RateLimiter.BackwardClockExceedsLimit | libs/application/src/in_memory_control_plane.cpp:544-561 | For every larger limit and every step by which the clock may go back, a run in order but for that one step puts one request too many into a window |
| RateLimiter.AnyClockIsBoundedExactly | libs/application/src/in_memory_control_plane.cpp:544-561 | The bound holds in all runs of all clocks exactly if the limit is one |
| Presence.VersionedPresence.Read | libs/application/src/directory.cpp:333-405 | A read updates the view exactly as an observation does and answers from it, or reports that versions are exhausted |
| Presence.CollectStates | libs/application/src/directory.cpp:316-331 | The collected states cover exactly the visible members, each with its transport status; refusal means more members than the maximum |
| Presence.CollectLatest | libs/application/src/directory.cpp:385-399 | The loop over revisions collects, for each visible player, its latest change after the base |
| Presence.ObserveRecords | libs/application/src/directory.cpp:333-362 | An observation keeps the retained revisions consecutive, ending at the current version, at most the maximum, each recording what changed since the version before |
| Presence.ServedBases | libs/application/src/directory.cpp:364-369 | A delta is served exactly for the bases the retained revisions reach back to |
| Presence.LatestOverlays | libs/application/src/directory.cpp:385-399 | The changes collected so far overlay the base to the version they reach, player by player |
| Presence.DeltaIsExact | libs/application/src/directory.cpp:371-405 | A served delta, laid over the states at its base and restricted to visible players, is exactly the current states |
| Presence.RunInv | libs/application/src/directory.cpp:299-406 | Over every run of reads the history stays recorded and a polling client knows the states of its version |
| Presence.PollingAgrees | libs/application/src/directory.cpp:299-406 | However reads interleave, a client that polls from a snapshot on knows the current state of every visible player |
| Presence.PollIsServed | libs/application/src/directory.cpp:364-369 | A client is told to start over exactly if more revisions have passed than are retained |
| Directory.MakeFingerprint | libs/application/src/directory.cpp:235-258 | The appending loops build the encoding of the content's list of values |
| Directory.PieceIsDelimited | libs/application/src/directory.cpp:15-21 | A length-prefixed value can be told apart from whatever follows it |
| Directory.EncodeIsInjective | libs/application/src/directory.cpp:15-26 | The encoding is injective on lists of strings |
| Directory.FingerprintDetermines | libs/application/src/directory.cpp:235-258 | Contents with equal fingerprints are equal exactly if their lists have equal lengths |
| Directory.FingerprintsCollide | libs/application/src/directory.cpp:235-258 | Two different plausible directories of one group, both given to the same reader, have the same fingerprint |
| Directory.VersionsFollowFingerprints | libs/application/src/directory.cpp:260-277 | A version never falls, rises exactly if the fingerprint changed, and refuses only when it would overflow |
| Directory.DirectoryVersions.VersionOf | libs/application/src/directory.cpp:260-277 | The stored versions change exactly as the specification assigns them, for the one group asked for |
| Directory.VersionsDetermine | libs/application/src/directory.cpp:260-277 | Over a whole run, in each group versions never fall and a version determines its fingerprint |
| Directory.NotModifiedIsIdentical | libs/network/src/control_plane_http.cpp:665-674 | "Not modified" is answered exactly for the same version; then the fingerprints agree, and with lists of equal lengths the body would be identical |
| Directory.NotModifiedMayBeWrong | libs/network/src/control_plane_http.cpp:665-674 | A run in which one reader's directory, changed by a newer context, is answered "not modified" |
| Directory.EtagsAreVersions | libs/network/src/control_plane_http.cpp:665-667 | Different versions have different tags |
| Directory.WriteItems | libs/network/src/control_plane_http.cpp:676-738 | The loop that writes a list with commas prints the list |
| Directory.DirectoryIsReceived | libs/network/src/control_plane_http.cpp:676-740 | The client's parser reads from the body exactly the version, group, nodes, roles and participants that were written |
| Directory.DirectoryIsUnderstood | libs/network/src/control_plane_http.cpp:676-740 | What the client understands of a body names its version and group and, in order, every node with its kind and parent, every role, and every participant with its roles |
| Playback.AdmitIsFeasible | libs/client/src/voice_client.cpp:504-521 | Admission respects suppression, every scope's limit and the total limit |
| Playback.AdmitServes | libs/client/src/voice_client.cpp:504-521 | Either the total limit is used up or every scope is served as far as its own limit and its streams allow |
| Playback.AdmissionIsOptimal | libs/client/src/voice_client.cpp:504-521 | For every prefix of the priority order, no feasible choice of streams holds more of that prefix than the admitted ones |
| Playback.SuppressionEvictsNobody | libs/client/src/voice_client.cpp:504-521 | Suppressing one stream evicts no other and newly admits at most one |
| Playback.SuppressionsEvictNobody | libs/client/src/voice_client.cpp:504-521 | Suppressing any number of streams evicts no other and newly admits at most as many as it puts out |
| Playback.RemovalIsSuppression | libs/client/src/voice_client.cpp:504-521 | Removing a stream decides for the others as suppressing it does |
| Playback.GainsAreGains | libs/client/src/voice_client.cpp:528-556 | Every gain lies between silence and the participant's volume, and a group stream that is admitted is never ducked |
| PlaybackEngine.PositionsOrder | libs/client/src/voice_client.cpp:491-502 | Sorting puts the streams in strict priority order; what that order means for the three scopes is `PlaybackPriority.DecidedByPriority` |
| PlaybackEngine.PositionsKeep | libs/client/src/voice_client.cpp:491-502 | The sorted list holds exactly the stored streams |
| PlaybackEngine.OrderIsUnique | libs/client/src/voice_client.cpp:491-502 | There is only one priority order of the same streams |
| PlaybackPriority.DecidedByPriority | libs/client/src/voice_client.cpp:489-521 | After deciding, a group stream is left out only if group streams fill the group limit or all places, a specialization stream only if its limit is filled or the two higher scopes fill all places, and within a scope earlier arrivals are preferred |
| PlaybackPriority.DecidedWithinLimits | libs/client/src/voice_client.cpp:504-521 | After deciding, the stored streams keep every limit and no silenced participant is heard |
| PlaybackPriority.DecidedLoudness | libs/client/src/voice_client.cpp:523-558 | After deciding, each stored stream is as loud as its volume and the higher scopes that are heard make it, and silent if left out |
| PlaybackPriority.EngineIsFair | libs/client/src/voice_client.cpp:240-299 | Whatever has been done with an engine, all three hold of its streams |
| PlaybackEngine.DecisionsIgnoreStorage | libs/client/src/voice_client.cpp:489-561 | The decisions do not depend on the order in which streams are stored |
| PlaybackEngine.SilencingEvictsNobody | libs/client/src/voice_client.cpp:263-273 | Muting or blocking participants, with all their streams, evicts nobody else and newly admits at most as many streams as it puts out |
| PlaybackEngine.SilencingKeepsStreams | libs/client/src/voice_client.cpp:582-603 | In the storage, every admitted stream whose participant is not silenced stays admitted |
| PlaybackEngine.DecidedIsSettled | libs/client/src/voice_client.cpp:489-561 | Deciding again what has just been decided changes nothing, so the stored flags always are the current decisions |
| PlaybackEngine.RemovalEvictsNobody | libs/client/src/voice_client.cpp:405-418 | Removing one stream evicts nobody and newly admits at most one |
| PlaybackEngine.RemovalKeepsOrder | libs/client/src/voice_client.cpp:405-418 | Removing a stored stream takes just that one out of the priority order |
| PlaybackEngine.RemovalKeepsStreams | libs/client/src/voice_client.cpp:405-418 | In the storage, every admitted stream that is not removed stays admitted |
| PlaybackEngine.Engine.Recompute | libs/client/src/voice_client.cpp:489-561 | Sorting, admitting and storing leave every stored stream with exactly the decision its place in the priority order earns, and report in that order what is stored; what is decided for each scope is `PlaybackPriority.DecidedByPriority` |
| PlaybackEngine.Engine.AudioAvailable | libs/client/src/voice_client.cpp:376-403 | A new stream joins behind the others and everything is decided anew; a known or unnamed one changes nothing |
| PlaybackEngine.Engine.AudioUnavailable | libs/client/src/voice_client.cpp:405-418 | Just that stream goes, the rest is decided anew, and whoever was admitted among the rest stays admitted |
| PlaybackEngine.Engine.SetMuted | libs/client/src/voice_client.cpp:582-603 | The flag set changes for just that participant and the streams are decided anew; muting evicts nobody else |
| PlaybackEngine.Engine.SetVolume | libs/client/src/voice_client.cpp:275-299 | A volume between zero and one becomes the participant's volume; any other is refused and changes nothing |
| PlaybackEngine.Engine.SetConfig | libs/client/src/voice_client.cpp:240-255 | A valid configuration takes effect on all streams; any other is refused and changes nothing |
| SampleQueue.NextInv | libs/livekit/src/pipewire_audio_playout.cpp:71-120 | The ring's invariant holds in every interleaving of one producer and one consumer, however often positions have wrapped |
| SampleQueue.NextRefinesQueue | libs/livekit/src/pipewire_audio_playout.cpp:74-107 | Every step appends to a bounded queue what a push accepted, removes from its front what a pop returned, or leaves it alone |
| SampleQueue.NeverOverwritesUnread | libs/livekit/src/pipewire_audio_playout.cpp:74-93 | The slot being written holds no unread sample |
| SampleQueue.PushTakesWhatFits | libs/livekit/src/pipewire_audio_playout.cpp:74-93 | A push accepts the smaller of its input and the room there is when it loads the read position |
| SampleQueue.PopTakesWhatIsThere | libs/livekit/src/pipewire_audio_playout.cpp:493-501 | A pop returns the smaller of what it wants and what is there; after size has shown a frame, a whole frame |
| SampleQueue.FirstInFirstOut | libs/livekit/src/pipewire_audio_playout.cpp:71-120 | In every run the popped samples are a prefix of the accepted ones, at most a capacity behind |
| SampleQueue.WrappedSlot | libs/livekit/src/pipewire_audio_playout.cpp:116-120 | A wrapped 64-bit position names the slot of the position it stands for |
| SampleQueue.WrappedDistance | libs/livekit/src/pipewire_audio_playout.cpp:109-114 | Unsigned subtraction of wrapped positions gives their true distance |
| SampleQueue.Queue16.Push | libs/livekit/src/pipewire_audio_playout.cpp:74-93 | A push appends as much of the input as fits, in the array and across its end |
| SampleQueue.Queue16.Pop | libs/livekit/src/pipewire_audio_playout.cpp:95-107 | A pop takes the oldest samples, as many as wanted and there |
| SampleQueue.Queue16.Size | libs/livekit/src/pipewire_audio_playout.cpp:109-114 | The size is the number of unread samples |
| Decimal.PrintReads | libs/client/src/control_plane_client.cpp:367-388 | A printed number consists of digits without a leading zero and reads back as itself |
| Utf8.EncodeIsDecoded | libs/client/src/control_plane_client.cpp:341-365 | A decoder by section 4 of RFC 3629 reads back every scalar value that is appended |
| Utf8.DecodedIsEncoded | libs/client/src/control_plane_client.cpp:341-365 | Whatever that decoder accepts is the encoding of a scalar value, so encodings are shortest and never of surrogates |
| Utf8.PairsAreBijective | libs/client/src/control_plane_client.cpp:304-339 | Surrogate pairs map one to one onto U+10000 to U+10FFFF |
| Utf8.EncodeIsWellFormed | libs/client/src/control_plane_client.cpp:341-365 | Appended code points are well-formed UTF-8 |
| Utf8.WellFormedConcat | libs/client/src/control_plane_client.cpp:208-270 | Well-formed pieces make a well-formed text |
| ClientJson.CodePoint | libs/client/src/control_plane_client.cpp:304-339 | Only scalar values come out of escapes: a lone surrogate gives none; the offset advances within the input |
| ClientJson.JsonParser.Parse | libs/client/src/control_plane_client.cpp:53-90 | Parsing terminates and gives a value exactly if the whole input is one, with the offset within bounds |
| ClientJson.JsonParser.ParseValue | libs/client/src/control_plane_client.cpp:92-136 | The parser reads what the grammar function reads at its offset and stops behind it; its offset never leaves the input |
| ClientJson.JsonParser.ParseMembers | libs/client/src/control_plane_client.cpp:148-173 | Object members are read one by one; a repeated name fails |
| ClientJson.JsonParser.ParseItems | libs/client/src/control_plane_client.cpp:186-205 | Array items are read one by one |
| ClientJson.JsonParser.ParseString | libs/client/src/control_plane_client.cpp:208-270 | A string is read to its closing quote, with escapes decoded and control characters refused |
| ClientJson.JsonParser.ParseHexCodeUnit | libs/client/src/control_plane_client.cpp:272-302 | Four hexadecimal digits give their code unit |
| ClientJson.JsonParser.ParseEscapedCodePoint | libs/client/src/control_plane_client.cpp:304-339 | Escaped code units give a code point, a high surrogate only together with the low one behind it |
| ClientJson.JsonParser.ParseUnsigned | libs/client/src/control_plane_client.cpp:367-388 | Digits without a leading zero give their number if it fits 64 bits |
| ClientJson.EscapeJson | libs/client/src/control_plane_client.cpp:458-496 | The client quotes a text exactly if it holds no control character without a short escape, and then as specified |
| JsonLaws.UnicodeEscapeIsRead | libs/client/src/control_plane_client.cpp:304-339 | An escaped unit outside the surrogates is its code point, a high and a low surrogate are one together, and every other surrogate is refused |
| JsonLaws.UnitIsRead | libs/client/src/control_plane_client.cpp:272-302 | Four digits in either case give their code unit, the first one counting most |
| JsonLaws.ShortEscapes | libs/client/src/control_plane_client.cpp:208-270 | Both sides know the same eight short escapes and no others |
| JsonLaws.ClientStringsAreClean | libs/client/src/control_plane_client.cpp:208-270 | No string that is read holds a raw control character |
| JsonLaws.NumbersAreCanonical | libs/client/src/control_plane_client.cpp:367-388 | A number is read only as it would be printed, within 64 bits and up to its last digit |
| JsonLaws.NothingBehind | libs/client/src/control_plane_client.cpp:53-90 | A document is read exactly if it is a value with only white space behind it |
| JsonRoundTrip.QuotedIsRead | libs/network/src/control_plane_http.cpp:51-99 | Every byte string the server quotes, control characters included, is read back by the client, whatever follows it |
| JsonRoundTrip.ValueIsRead | libs/client/src/control_plane_client.cpp:92-206 | Every value the server prints, nested to any depth, is read back by the client as what it means |
| JsonRoundTrip.BodyIsRead | libs/client/src/control_plane_client.cpp:53-392 | A whole printed body parses to its meaning |
| ServerJson.EscapeJson | libs/network/src/control_plane_http.cpp:51-99 | The escaping loop writes the quoted text |
| ServerJson.ParseJsonString | libs/network/src/control_plane_http.cpp:114-176 | The server reads a string as its grammar function does, with the position within bounds |
| ServerJson.ParseJsonUnsigned | libs/network/src/control_plane_http.cpp:178-200 | The server reads an unsigned number as its grammar function does |
| ServerJson.ParseFlatJsonObject | libs/network/src/control_plane_http.cpp:202-286 | Reading a flat object terminates on every input with an object exactly where there is one |
| FlatRoundTrip.QuotedIsRead | libs/client/src/control_plane_client.cpp:458-496 | Every text the client can quote is read back by the server |
| FlatRoundTrip.FlatObjectIsRead | libs/network/src/control_plane_http.cpp:202-286 | A flat object the client prints is read by the server as exactly its fields |
| FlatRoundTrip.StartBody | libs/client/src/control_plane_client.cpp:1076-1078 | The start body exists exactly for an escapable id, and the server reads from it exactly the id, the scope and the 64-bit version |
| Tokens.Base64Url | libs/livekit/src/livekit_token.cpp:139-164 | The loop over groups of three bytes writes the unpadded base64url text |
| Tokens.EncodeIsDecoded | libs/livekit/src/livekit_token.cpp:139-164 | The decoder of section 5 of RFC 4648 recovers every byte string |
| Tokens.DecodedIsEncoded | libs/livekit/src/livekit_token.cpp:139-164 | Whatever that decoder accepts is the encoding of what it gives |
| Tokens.LengthIsRoundedUp | libs/livekit/src/livekit_token.cpp:139-164 | n bytes become 4n/3 characters, rounded up |
| Tokens.EncodingIsUndotted | libs/livekit/src/livekit_token.cpp:139-164 | No encoding contains a dot |
| Tokens.Alphabet | libs/livekit/src/livekit_token.cpp:139-164 | The alphabet is the one of section 5 of RFC 4648 |
| Tokens.Token | libs/livekit/src/livekit_token.cpp:286-290 | A token splits at its dots into three parts that decode to header, payload and signature |
| Tokens.JoinedIsSplit | libs/livekit/src/livekit_token.cpp:286-290 | Three dotless parts joined by dots are recovered by splitting |
| Tokens.Pad | libs/livekit/src/livekit_token.cpp:28-40 | The padding loop terminates with the padded message |
| Tokens.PaddedLength | libs/livekit/src/livekit_token.cpp:28-40 | The padded message is the least multiple of 64 bytes that holds message, mark and length |
| Tokens.PaddedParts | libs/livekit/src/livekit_token.cpp:28-40 | The padded message is the message, a one bit, zeros, and the length in bits as a big-endian number |
| Tokens.PaddingIsInjective | libs/livekit/src/livekit_token.cpp:28-40 | Below 2^61 bytes different messages are padded differently |
| PttInput.ValidateBindings | libs/client/src/ptt_input.cpp:240-288 | Bindings are accepted exactly if acceptable, and every reported error names a binding at fault |
| PttInput.PushToTalkBindingEngine.SetBindings | libs/client/src/ptt_input.cpp:108-135 | Acceptable bindings replace the old ones and release what was held; others change nothing; the changes reported are the differences |
| PttInput.PushToTalkBindingEngine.ReleaseEverything | libs/client/src/ptt_input.cpp:156-167 | Nothing is held or pressed afterwards, and the changes reported are the differences |
| PttInput.PushToTalkBindingEngine.OnInput | libs/client/src/ptt_input.cpp:188-216 | An input event changes the held controls and the pressed actions with them, reporting the differences; which actions are pressed is `PttInput.EventPresses` |
| PttInput.PushToTalkBindingEngine.OnDeviceRemoved | libs/client/src/ptt_input.cpp:218-238 | A removed device's controls are no longer held, and the pressed actions follow |
| PttInput.PushToTalkBindingEngine.Recalculate | libs/client/src/ptt_input.cpp:290-312 | The pressed actions become those computed from bindings and held controls, and exactly the differences are reported |
| PttInput.NothingHeld | libs/client/src/ptt_input.cpp:240-288 | With acceptable bindings and nothing held no action is pressed |
| PttInput.AuthorizedPushToTalkInput.OnPushToTalkActionChanged | libs/client/src/ptt_input.cpp:343-382 | Only the first pressed action presses the target and only its release releases it; the observer hears the target's answer to either, or that the press was refused |
| PttInput.RunKeepsFaith | libs/client/src/ptt_input.cpp:108-383 | Over every run pressed actions equal the recomputed ones, each action's notifications alternate, and an open target press belongs to a held action |
| PttInput.EventPresses | libs/client/src/ptt_input.cpp:64-312 | After every event an action with some control up in each of its chords is not pressed, one with a chord wholly down is, and the held controls are those before with or without the event's |
| PttInput.RunHoldsOnce | libs/client/src/ptt_input.cpp:188-312 | Over every run no control is held twice, and the pressed actions are those of the chords that are down |
| PttChords.AcceptedChordsDiffer | libs/client/src/ptt_input.cpp:240-288 | Accepted chords are nonempty sets of valid controls, and no two of them are the same set, in whatever order they are written |
| PttChords.ClashExactly | libs/client/src/ptt_input.cpp:17-43 | Bindings clash exactly if they have the same controls, or belong to different actions and agree control by control up to an open device |
| PttChords.ChordIsSet | libs/client/src/ptt_input.cpp:240-288 | A chord is in order by itself exactly if it is a nonempty set of valid controls |
| PttChords.ErrorsNameTheirFault | libs/client/src/ptt_input.cpp:240-288 | Each reported error is true of the binding it names |
| PttInput.ReleasingLeavesNoPress | libs/client/src/ptt_input.cpp:108-167 | After releasing everything or accepting new bindings, no target press is left unreleased |
| SessionState.ConnectionStateMachine.OnTransportConnected | libs/domain/src/state_machine.cpp:32-43 | The transition happens exactly from the connecting states and forgets the membership version |
| SessionState.TransmissionStateMachine.OnAccepted | libs/domain/src/state_machine.cpp:154-166 | An acceptance counts exactly for the request that awaits it |
| SessionState.TransmissionStateMachine.End | libs/domain/src/state_machine.cpp:181-195 | Ending drops a request at once and turns a transmission to ending |
| SessionState.VoiceSessionStateMachine.Handle | libs/domain/src/state_machine.cpp:262-367 | Every event moves the two machines together exactly as the specification says, and reports whether it did |
| SessionState.NextInv | libs/domain/src/state_machine.cpp:262-367 | Every event keeps connection and transmission consistent |
| SessionState.TransmittingMeansReady | libs/domain/src/state_machine.cpp:287-335 | In every run a transmission that is not idle stands on a ready connection at the same membership version |
| SessionState.SilentAfterBreak | libs/domain/src/state_machine.cpp:287-318 | After a loss, a disconnect or a membership change nothing is transmitted until it is requested anew |
| SessionState.LateAcceptanceNeverRevives | libs/domain/src/state_machine.cpp:154-195 | An acceptance of a request released before its answer is refused and changes nothing, however late it comes |
| SessionState.VersionsRise | libs/domain/src/state_machine.cpp:45-80 | Between reconnects the membership version grows by at least one with every change taken up and never falls |
| SessionState.ReadyOnlyWhenRestored | libs/domain/src/state_machine.cpp:57-67 | A connection becomes ready only by restoring the subscriptions of its current version |
| SessionState.EventIsTaken | libs/domain/src/state_machine.cpp:21-367 | In a consistent session each event is taken up exactly under its own condition, and changes nothing otherwise |
| SessionState.ConnectionFollows | libs/domain/src/state_machine.cpp:21-105 | The connection steps through transport, membership and subscriptions, one version at a time |
| SessionState.StopReasonsFollow | libs/domain/src/state_machine.cpp:168-367 | Whatever ends a transmission leaves its own reason, and nothing else touches the last one but a new request |
| SessionState.RegularTransmission | libs/domain/src/state_machine.cpp:139-207 | On a ready connection a request in the selected scope and current version is accepted, ended and confirmed |
| SessionState.RegularConnection | libs/domain/src/state_machine.cpp:21-67 | The regular course of connecting ends ready at its version |

## Left out

- AuthorizedVoiceClient.MicrophoneOnlyWhileAuthorized: false of runs in which `endInterruptedTransmission` ends a transmission before its press opens the microphone (`EarlyCleanup.AudioAfterEnd`), so it is claimed for all others, and `CleanKeepsAudioExactly` shows that nothing less will do. A cancelling release that runs late (`libs/client/src/authorized_voice_client.cpp:403-405`) may stop the microphone of a later generation; only the direction "audio implies authorisation" is claimed.
- AuthorizedVoiceClient.MicrophoneClosedAtEnds: false of runs in which `endInterruptedTransmission` is called with the microphone open (`EarlyCleanup.OpenAtEnd`), so it is claimed for all others, and `CleanIsSilentExactly` shows that nothing less will do.
- AuthorizedVoiceClient.NextInv: `connect`, `refreshAuthorization` and `disconnect` are serialised with each other on one thread, and transmission ids granted by the server are fresh; `connect` is modelled without holding the lock across its calls, which allows more interleavings than the code.
- VoiceClientLock.Client.WakeRelease: a releaser that wakes late returns the last stop result there is, which a newer generation may have reset (`libs/client/src/voice_client.cpp:123`), so it is claimed to be its own only until the next press begins (`VoiceAnswers.WaiterIsTold`).
- VoiceClient.NextInv: publication generations are unbounded, so their wrap-around after 2^64 presses is not modelled; connection generations, observer calls and event sequence numbers are left out.
- VoiceClient.ReportInv: before reporting a state other than connected the transport is assumed to have silenced the microphone, or the failure to do so is recorded as a broken stop.
- ControlPlaneRights.PublishesOnlyWhileActive: revocations are assumed to succeed when delivered and refused grants to have had no effect; delivery failures are only counted by the source.
- ControlPlaneStore.ActivationKeepsWithinExactly: says of one activation only what the count says; the statement about runs is `ControlPlaneWitnesses.SpeakerLimitHoldsExactly`.
- ControlPlaneRuns.StoreRun: the rate limiter's verdict, the moderator's right and the voice service's answer to a grant are arbitrary choices; inserting a session never ends a transmission, as in the source.
- ControlPlaneStore.InMemoryStore.ExpireTimedOut: the order in which the source's ordered map lists several ended transmissions is not claimed, only that each is listed once; the same holds for the other erasing loops.
- RateLimiter.NoWindowExceedsLimit: claimed for call times that do not decrease; for arbitrary times it holds exactly for a limit of one (`AnyClockIsBoundedExactly`).
- Directory.NotModifiedIsIdentical: an identical body is claimed for lists of equal lengths only, since the fingerprint determines no more.
- Presence.DeltaIsExact: a delta never reports that a player is gone, so agreement is claimed for the players visible now.
- Presence.VersionedPresence.Read: one group's view; the map from groups to views and the profile upload beside it are left out, as is the assembly of the directory's content from profiles, roles and hierarchy (`libs/application/src/directory.cpp:63-233`).
- PlaybackEngine.Engine.Recompute: gains are real numbers, and applying a change to the transport (`libs/client/src/voice_client.cpp:563-580`) is left out.
- SampleQueue.NextInv: scaling and rounding of samples in a push are left out, and acquire/release ordering is taken as interleaving of single loads, stores and slot accesses.
- ClientJson.JsonParser.Parse: characters stand for bytes and recursion depth is not limited; after a failed parse the offset is only claimed to be within the input.
- FlatRoundTrip.StartBody: claimed for versions below 2^64, the source's type.
- Tokens.Token: the header and payload texts and the rounds of SHA-256 and HMAC are left out; the three parts are arbitrary byte strings.
- PttInput.PushToTalkBindingEngine.OnInput: device profiles and calls to observers attached only for part of a run are left out; notifications are delivered in the order the changes are computed.
- SessionState.VoiceSessionStateMachine.Handle: version numbers are unbounded.
- Persistent sessions and memberships in SQLite, which the store may use in place of its maps.
- Mapping of errors to codes and HTTP status, route dispatch, session and identity issuing, option parsing: single branches each.
- Sockets, HID input, PipeWire, XAudio2 and the voice service's SDK: the transport is an arbitrary partner that reports states and results.
- The user interface, the C interface, the quality gates and the load driver.
