# Calls, messages and groups of a peer-to-peer web chat

A Dafny model of the coordination logic of the web chat: direct calls and group rooms in
Redis, the message log with its memberships and read positions in PostgreSQL, offer/answer
negotiation between two browsers, the browser's fences against late answers, mention ranges
over UTF-16 text, and the fixed-window limiter.

Each script, transaction or serialized callback is one atomic step on explicit state. The
model has two layers. Functions describe a step on values, and lemmas about runs of such
steps carry the results. Classes have the source's fields and update them statement by
statement, with the source's loops; every method is proved to do what its function says. What the
functions do is stated a second time, without them, by the modules whose names end in
`Laws` or `Promises`: who succeeds and exactly when, and what each step leaves unchanged.

| files | content |
|---|---|
| `Negotiation`, `NegotiationProofs`, `NegotiationPromises`, `CallFacade` | two browsers, two first-in first-out queues, signalling states of section 3.2 of RFC 8829 |
| `CallStore`, `CallInvariant`, `RoomInvariant`, `CallRuns`, `CallHistory`, `CallLaws`, `KeyLaws`, `RoomLaws`, `PresenceCoordinator` | call and room scripts over live keys and a clock |
| `GroupCallClient`, `GroupCallLaws` | room snapshots arriving late, twice or out of order |
| `Conversations`, `ConversationInvariant`, `ConversationRuns`, `ConversationHistory`, `GroupLaws`, `MessageStore` | message logs, memberships, cursors, membership events |
| `Reconciliation`, `Delivery`, `GroupPaging` | paging loops over a changing database |
| `Listings` | what history, catching up and replay show a member over whole runs |
| `GroupCallLease` | rooms and memberships together |
| `GroupAccess`, `GroupAccessProofs`, `GroupAccessLaws`, `HomeGroupAccessFacade`, `GroupListLaws` | access fences of one group and of all groups |
| `CodeUnits`, `Mentions`, `MentionEdits`, `MentionNormalization` | UTF-16 ranges (section 2.1 of RFC 2781) |
| `RateLimiter` | one counter shared by two services |
| `Options` | an optional value |

Verify it with `dafny verify dfyconfig.toml`.

The main results, area by area; the table below says what each states:

- negotiation: `NegotiationPromises.EveryRequestIsAnswered`, `NegotiationProofs.AnswerMeetsItsOffer`,
  `NegotiationProofs.CandidatesArriveInOrder`, `NegotiationProofs.DeliveriesEnd`
- calls and rooms: `CallHistory.OneCallPerUser`, `CallHistory.RoomsAgreeWithIndexes`,
  `CallHistory.AcceptedAndClaimedOnce`, `CallLaws.OnlyTheRightfulChangeACall`,
  `CallLaws.StartSucceedsExactly`, `RoomLaws.OnlyTheRightfulChangeARoom`,
  `RoomLaws.RingingRoomsAreAlone`, `RoomLaws.LeaveTakesOneOut`, `KeyLaws.DevicesReachTheirCall`
- messages and groups: `ConversationHistory.UnreadIsRecount`,
  `ConversationHistory.RetryReturnsTheFirst`, `ConversationHistory.RevisionsAreConsecutive`,
  `GroupLaws.OnlyManagersChangeAGroup`, `GroupLaws.OneDirectConversation`,
  `Listings.CatchingUpGetsTheBox`, `Reconciliation.TraversalIsComplete`
- both systems together: `GroupCallLease.SameRevisionMeansMembers`,
  `GroupCallLease.FinalSnapshotReachesEveryMember`
- the browser: `GroupCallClient.RoomIsKeptExactly`, `GroupCallClient.OrderDoesNotMatter`,
  `GroupCallClient.RetiredStays`, `GroupAccessProofs.StaleLookupNeverAuthorizes`,
  `GroupAccessLaws.CurrentLookupAuthorizesExactly`, `GroupAccessLaws.LookupsAskForTheNewest`,
  `GroupListLaws.ListShowsExactly`
- texts, pages and limits: `Mentions.ServerAndBrowserAgree`, `MentionEdits.EditKeepsValid`,
  `GroupPaging.UnchangedListedOnce`, `RateLimiter.MessagesFewerThanTwice`

Where results differ from what one might expect:

- A superseded lookup can still authorize (`GroupAccessProofs.SupersededLookupMayAuthorize`), also
  after a departure fence was raised if the lookup began later;
  `GroupAccessProofs.SupersededLookupAuthorizes` gives the exact condition.
- A late full end of another room that carries a support reference ends or replaces the call the
  group-call client shows, although a comment beside `acceptsRoomEvent` says that a delayed frame
  never switches an established room (`GroupCallClient.LateEndTearsDownAnotherCall`,
  `GroupCallClient.LateEndReplacesAnotherCall`); `GroupCallClient.RoomIsKeptExactly` gives the exact
  condition. A repeated full end of a finished room cancels a discovery the user has begun since
  (`GroupCallClient.RepeatedEndCancelsDiscovery`), exactly as `GroupCallClient.EndedRoomIsIgnoredExactly` says.
- The group-call client forgets a retired room once 32 others have been retired after it, and a
  delayed start then brings it back (`GroupCallClient.RetiredStays`).
- The timeout of an active direct call is swept but never reported, since its record is gone by
  then (`CallHistory.SweptCallsWereRinging`).
- Editing a body that is not well-formed UTF-16 can leave an invalid mention list
  (`MentionEdits.LoneSurrogateBreaksAnEdit`); `MentionEdits.EditKeepsValid` gives the exact condition.
- The limiter admits at most one request less than twice its limit in any interval as long
  as its window, and `RateLimiter.BoundIsReached` reaches that.

Assumptions shared by the results about runs: identifiers of calls, rooms and conversations
are new when they are created; each step reads the clock once; the relay between two
browsers keeps the order of signals in each direction; group sort keys only grow between
two pages of one traversal.

## Model

| member | source | states |
|---|---|---|
| `NegotiationProofs.AnswerMeetsItsOffer` | frontend-app/src/app/home/call-facade.service.ts:489-540 | In every run over the two FIFO queues, the answer at the head of a queue finds its receiver connected and holding exactly the offer it answers. |
| `NegotiationProofs.QuietMeansSettled` | frontend-app/src/app/home/call-facade.service.ts:507-535 | When both browsers are connected and both queues are empty, both are stable and nothing is pending. |
| `NegotiationPromises.EveryRequestIsAnswered` | frontend-app/src/app/home/call-facade.service.ts:594-610 | Over every run, once both browsers are connected and nothing is in flight, the offer due for the latest media change of each side has been handed to the relay and its answer delivered; what is due and what is answered is noted by an observer of the queues. |
| `NegotiationPromises.RequestIsCarried` | frontend-app/src/app/home/call-facade.service.ts:243-276 | A media change of a connected browser either hands over exactly the offer due, as the last signal of its queue, or leaves it to be made when the open offer is settled. |
| `NegotiationPromises.StepKeepsPromises` | frontend-app/src/app/home/call-facade.service.ts:507-535 | Through every delivery, rollback and connection the offer due is answered, open, or still to be made. |
| `NegotiationProofs.CandidatesArriveInOrder` | frontend-app/src/app/home/call-facade.service.ts:541-547 | Every candidate a browser gathered is, in order, added by the other, waiting for its remote description, kept until its connection exists, or still in the queue: none is lost, repeated or overtaken, and none is added before a remote description. |
| `NegotiationProofs.OffersAreBounded` | frontend-app/src/app/home/call-facade.service.ts:594-610 | All offers sent in a run are at most twice the requests of the caller plus those of the recipient. |
| `NegotiationProofs.DeliveryProgress` | frontend-app/src/app/home/call-facade.service.ts:507-535 | Each delivery, and the creation of the recipient's connection with its replay, lowers a measure of the queues, kept signals and pending flags; a request raises it by the cost of one offer and a candidate by one. |
| `NegotiationProofs.DeliveriesEnd` | frontend-app/src/app/home/call-facade.service.ts:489-540 | Without new requests, deliveries in any order, with the recipient's connection created at any moment among them, end within that measure, so glare resolution ends. |
| `NegotiationProofs.DeliveriesAreBounded` | frontend-app/src/app/home/call-facade.service.ts:489-540 | In every run, whatever its order, the signals delivered number at most one more than four for each request of the caller, two for each of the recipient and one for each candidate. |
| `NegotiationProofs.StepKeeps` | frontend-app/src/app/home/call-facade.service.ts:442-547 | Every step keeps the joint invariant: which descriptions may be in the two queues for each pair of signalling states, and the books of offers and candidates. |
| `NegotiationProofs.RecipientKeepsShape` | frontend-app/src/app/home/call-facade.service.ts:507-535 | The polite side: whatever it receives, the queues and both signalling states keep one of the few admissible shapes, also when it rolls back its own offer. |
| `NegotiationProofs.CallerKeepsShape` | frontend-app/src/app/home/call-facade.service.ts:507-535 | The impolite side ignores a colliding offer, and the shapes are kept. |
| `NegotiationProofs.RecipientReplays` | frontend-app/src/app/home/call-facade.service.ts:459-462 | Replaying the signals kept before the connection existed keeps the joint invariant. |
| `CallFacade.CallFacade.CreateAndSendOffer` | frontend-app/src/app/home/call-facade.service.ts:594-610 | The method does what the negotiation function does: offer when stable, otherwise remember that an offer is due. |
| `CallFacade.CallFacade.Renegotiate` | frontend-app/src/app/home/call-facade.service.ts:250-280 | A local media change asks for an offer. |
| `CallFacade.CallFacade.FlushPendingCandidates` | frontend-app/src/app/home/call-facade.service.ts:541-547 | The waiting candidates are added in order, after those added before, and none stays. |
| `CallFacade.CallFacade.RunPendingRenegotiation` | frontend-app/src/app/home/call-facade.service.ts:522-525 | A remembered request is carried out once. |
| `CallFacade.CallFacade.ApplyOffer` | frontend-app/src/app/home/call-facade.service.ts:507-527 | An offer is ignored, or answered after a rollback if needed; every browser operation is called in a state that allows it. |
| `CallFacade.CallFacade.ApplyAnswer` | frontend-app/src/app/home/call-facade.service.ts:528-536 | An answer is taken only while an offer of ours is open, and then a remembered request is carried out. |
| `CallFacade.CallFacade.ApplySignal` | frontend-app/src/app/home/call-facade.service.ts:489-540 | One received signal has exactly the effect of the negotiation function on the state and the signals sent. |
| `CallFacade.CallFacade.HandleSignal` | frontend-app/src/app/home/call-facade.service.ts:464-468 | Signals that arrive before the connection are kept in order. |
| `CallFacade.CallFacade.ReplayKept` | frontend-app/src/app/home/call-facade.service.ts:459-459 | The loop over the kept signals equals applying them one after another. |
| `CallFacade.CallFacade.HandleAccepted` | frontend-app/src/app/home/call-facade.service.ts:442-463 | Creating the connection replays the kept signals and lets the caller offer. |
| `CallHistory.OneCallPerUser` | services/realtime/internal/infrastructure/redis/calls.go:236-241 | In every reachable state a user is party to at most one live call or room, direct calls and group rooms counted together, although accepting looks at no room key. |
| `CallHistory.RoomsAgreeWithIndexes` | services/realtime/internal/infrastructure/redis/group_rooms.go:330-337 | A stored room that has not ended has one to four participants of different users, one connection each, any presenter among them, and is named by its conversation key, by every participant's key and by the expiry index at its own deadline. |
| `CallHistory.CallsAgreeWithKeys` | services/realtime/internal/infrastructure/redis/calls.go:236-241 | A stored call that has not ended is indexed at its own deadline, has an accepted device exactly when active, and until its deadline holds the keys of both users. |
| `CallHistory.ReservationsPointHome` | services/realtime/internal/infrastructure/redis/group_rooms.go:330-337 | No user, device or conversation key of either machine points to anything but a live call or room of its own. |
| `CallHistory.RecordsOnlyAdvance` | services/realtime/internal/infrastructure/redis/group_rooms.go:330-337 | Between any two moments of a run, room revisions never fall and equal revisions mean equal rooms; ended is never left; the accepted device of a call never changes. |
| `CallHistory.AcceptedAndClaimedOnce` | services/realtime/internal/infrastructure/redis/calls.go:237-241 | Over a whole run each call has at most one accepting device, and the expiry of each call and of each room is claimed by at most one sweep, whichever replicas run the scripts. |
| `CallHistory.CallSweepClaims` | services/realtime/internal/infrastructure/redis/calls.go:241-241 | A sweep of calls takes exactly its batch out of the expiry index and ends every stored call of it; all else stays. |
| `CallHistory.CallSweepIsComplete` | services/realtime/internal/infrastructure/redis/calls.go:241-241 | After a sweep of calls the index holds nothing due, and no stored call is past its deadline without having ended. |
| `CallHistory.SweptCallsWereRinging` | services/realtime/internal/infrastructure/redis/calls.go:192-208 | A swept call that can still be read was never accepted: the record of an active call is gone at its own deadline, so its timeout is not reported. |
| `CallHistory.NeverIndexedAgain` | services/realtime/internal/infrastructure/redis/calls.go:236-241 | No command puts a call back into the expiry index. |
| `CallHistory.SweepIsComplete` | services/realtime/internal/infrastructure/redis/group_rooms.go:337-337 | After a sweep that its limit did not cut short no stored room is past its deadline without having ended. |
| `CallHistory.SweepClaims` | services/realtime/internal/infrastructure/redis/group_rooms.go:337-337 | A sweep claims exactly the expired rooms of its batch, once each, and ends them; no other room becomes or stops being expired. |
| `CallHistory.StepLater` | services/realtime/internal/infrastructure/redis/calls.go:236-243 | Every command leaves stored records as they were or moves them forward; nothing reappears. |
| `CallHistory.AcceptLogged` | services/realtime/internal/infrastructure/redis/calls.go:237-237 | A call that was accepted before cannot be accepted again. |
| `CallInvariant.OneEngagement` | services/realtime/internal/infrastructure/redis/calls.go:236-241 | The key invariant leaves a user at most one engagement. |
| `CallInvariant.RecoveredKeeps` | services/realtime/internal/infrastructure/redis/calls.go:236-236 | Recovering a stale reservation keeps all key invariants of both machines. |
| `CallInvariant.StartCallKeeps` | services/realtime/internal/infrastructure/redis/calls.go:236-236 | Starting a call, on every branch, keeps all key invariants of both machines. |
| `CallInvariant.AcceptCallKeeps` | services/realtime/internal/infrastructure/redis/calls.go:237-237 | Accepting keeps them: the reservations made at the start still cover both users. |
| `CallInvariant.DeclineCallKeeps` | services/realtime/internal/infrastructure/redis/calls.go:238-238 | Declining keeps them. |
| `CallInvariant.CancelCallKeeps` | services/realtime/internal/infrastructure/redis/calls.go:239-239 | Cancelling keeps them. |
| `CallInvariant.EndCallKeeps` | services/realtime/internal/infrastructure/redis/calls.go:240-240 | Ending keeps them. |
| `CallInvariant.ExpireCallsKeeps` | services/realtime/internal/infrastructure/redis/calls.go:241-241 | The expiry sweep over calls keeps them. |
| `RoomInvariant.StartRoomKeeps` | services/realtime/internal/infrastructure/redis/group_rooms.go:330-330 | Starting a room keeps all key invariants of both machines. |
| `RoomInvariant.JoinRoomKeeps` | services/realtime/internal/infrastructure/redis/group_rooms.go:331-331 | Joining keeps them, with the renewed deadlines of all keys of the room. |
| `RoomInvariant.LeaveRoomKeeps` | services/realtime/internal/infrastructure/redis/group_rooms.go:332-332 | Leaving keeps them, whether others remain or the room ends. |
| `RoomInvariant.EndRoomKeeps` | services/realtime/internal/infrastructure/redis/group_rooms.go:333-333 | Ending a room keeps them. |
| `RoomInvariant.SetPresenterKeeps` | services/realtime/internal/infrastructure/redis/group_rooms.go:334-334 | Presenting keeps them: the presenter is one of the participants. |
| `RoomInvariant.EndRoomForMembershipKeeps` | services/realtime/internal/infrastructure/redis/group_rooms.go:335-335 | Ending a room because of a membership change keeps them. |
| `RoomInvariant.AbortRoomStartKeeps` | services/realtime/internal/infrastructure/redis/group_rooms.go:336-336 | Undoing a start keeps them. |
| `RoomInvariant.ExpireRoomsKeeps` | services/realtime/internal/infrastructure/redis/group_rooms.go:337-337 | The expiry sweep over rooms keeps them. |
| `RoomInvariant.KeptSocketsAligned` | services/realtime/internal/infrastructure/redis/group_rooms.go:332-332 | The nested loops of leaving keep exactly one connection for each remaining participant, in the same order. |
| `RoomInvariant.TickKeeps` | services/realtime/internal/infrastructure/redis/group_rooms.go:330-337 | The passing of time, at which keys disappear one by one, keeps all key invariants: hashes, reservations and indexes of a room run out together. |
| `PresenceCoordinator.PresenceCoordinator.NoneClaimed` | services/realtime/internal/infrastructure/redis/calls.go:242-242 | The first pass finds out whether any of the users is being admitted already. |
| `PresenceCoordinator.PresenceCoordinator.AcquireCallAdmission` | services/realtime/internal/infrastructure/redis/calls.go:37-62 | Either every user of the list gets the token or none does. |
| `PresenceCoordinator.PresenceCoordinator.ReleaseCallAdmission` | services/realtime/internal/infrastructure/redis/calls.go:64-73 | Only keys that still hold the token are deleted. |
| `PresenceCoordinator.PresenceCoordinator.Start` | services/realtime/internal/infrastructure/redis/calls.go:236-236 | The start script, branch by branch, is the start function on the store. |
| `PresenceCoordinator.PresenceCoordinator.Accept` | services/realtime/internal/infrastructure/redis/calls.go:237-237 | The accept script is the accept function on the store. |
| `PresenceCoordinator.PresenceCoordinator.Decline` | services/realtime/internal/infrastructure/redis/calls.go:238-238 | The decline script is the decline function on the store. |
| `PresenceCoordinator.PresenceCoordinator.Cancel` | services/realtime/internal/infrastructure/redis/calls.go:239-239 | The cancel script is the cancel function on the store. |
| `PresenceCoordinator.PresenceCoordinator.End` | services/realtime/internal/infrastructure/redis/calls.go:240-240 | The end script is the end function on the store. |
| `PresenceCoordinator.PresenceCoordinator.EndByDevice` | services/realtime/internal/infrastructure/redis/calls.go:100-130 | When a socket disconnects, every call its device key or user key names and it may end has ended; exactly the reported calls changed, and only their keys are gone. |
| `PresenceCoordinator.PresenceCoordinator.SweepDueCalls` | services/realtime/internal/infrastructure/redis/calls.go:241-241 | The loop over due calls ends each stored one, removes each from the index, and answers all of them. |
| `PresenceCoordinator.PresenceCoordinator.ExpireDueCalls` | services/realtime/internal/infrastructure/redis/calls.go:191-209 | The timeouts reported are those of the swept calls that can still be read. |
| `PresenceCoordinator.PresenceCoordinator.StartGroupRoom` | services/realtime/internal/infrastructure/redis/group_rooms.go:330-330 | The start script, with the checks before it, is the start function on the store. |
| `PresenceCoordinator.PresenceCoordinator.RenewUsers` | services/realtime/internal/infrastructure/redis/group_rooms.go:331-331 | The loop extends exactly the user keys that still name the room. |
| `PresenceCoordinator.PresenceCoordinator.JoinGroupRoom` | services/realtime/internal/infrastructure/redis/group_rooms.go:331-331 | The join script is the join function on the store. |
| `PresenceCoordinator.PresenceCoordinator.DeleteRoomUsers` | services/realtime/internal/infrastructure/redis/group_rooms.go:333-333 | The loop deletes exactly the participants' keys that still name the room. |
| `PresenceCoordinator.PresenceCoordinator.LeaveGroupRoom` | services/realtime/internal/infrastructure/redis/group_rooms.go:332-332 | The leave script is the leave function on the store. |
| `PresenceCoordinator.PresenceCoordinator.EndGroupRoom` | services/realtime/internal/infrastructure/redis/group_rooms.go:333-333 | The end script is the end function on the store. |
| `PresenceCoordinator.PresenceCoordinator.SetGroupPresenter` | services/realtime/internal/infrastructure/redis/group_rooms.go:334-334 | The presenter script is the presenter function on the store. |
| `PresenceCoordinator.PresenceCoordinator.EndGroupRoomForMembershipChange` | services/realtime/internal/infrastructure/redis/group_rooms.go:185-205 | The conversation key is read first; then the membership script ends the room it observed and no later one. |
| `PresenceCoordinator.PresenceCoordinator.AbortGroupRoomStart` | services/realtime/internal/infrastructure/redis/group_rooms.go:336-336 | The abort script ends the attempted room of its own socket only. |
| `PresenceCoordinator.PresenceCoordinator.ExpireGroupRooms` | services/realtime/internal/infrastructure/redis/group_rooms.go:337-337 | The sweep is the sweep function: the store it leaves and the list it claims. |
| `PresenceCoordinator.Remaining` | services/realtime/internal/infrastructure/redis/group_rooms.go:332-332 | The nested loops compute the other participants and their sockets. |
| `CallLaws.OnlyTheRightfulChangeACall` | services/realtime/internal/infrastructure/redis/calls.go:236-241 | Over every run a call that has not ended changes only when its recipient accepts it in time, its recipient or caller ends it from the right browser, its deadline is swept, or a start finds its browsers gone; accepting and ending leave exactly the fields they should. |
| `CallLaws.StartSucceedsExactly` | services/realtime/internal/infrastructure/redis/calls.go:236-236 | A start succeeds exactly when both users hold the admission, are in no room and in no call but one whose browsers are gone, and the recipient has a connection; a holder that is not gone answers busy; the new call rings for thirty seconds. |
| `CallLaws.LiveCallsSurviveAStart` | services/realtime/internal/infrastructure/redis/calls.go:236-236 | Whoever starts a call, a call whose browsers are still there stays as it was, and one that holds a key of either user makes the answer busy. |
| `CallLaws.AcceptSucceedsExactly` | services/realtime/internal/infrastructure/redis/calls.go:237-237 | Exactly the recipient of a call that still rings accepts it. |
| `CallLaws.FinishSucceedsExactly` | services/realtime/internal/infrastructure/redis/calls.go:238-240 | Exactly the recipient declines and the caller's browser cancels a ringing call; exactly the browsers in a call, or a recipient who has none left, end it. |
| `CallLaws.AdmissionIsExact` | services/realtime/internal/infrastructure/redis/calls.go:242-243 | All users of a request are admitted for two seconds or none is, and only keys with the token are given back. |
| `CallLaws.LostCallFreesItsKeys` | services/realtime/internal/infrastructure/redis/calls.go:236-236 | In any store a key that names a lost record is given back by the next start. |
| `KeyLaws.DevicesReachTheirCall` | services/realtime/internal/infrastructure/redis/calls.go:100-130 | Over every run a browser in a call that has not ended and is not due finds it under its device's key and may end it. |
| `KeyLaws.AdmissionsLapse` | services/realtime/internal/infrastructure/redis/calls.go:242-242 | Over every run an admission lapses within two seconds. |
| `KeyLaws.WaitingDropsTheDue` | services/realtime/internal/infrastructure/redis/group_rooms.go:330-337 | The clock takes away exactly the keys whose deadline has come. |
| `KeyLaws.SweepReportsWhatItEnds` | services/realtime/internal/infrastructure/redis/calls.go:191-209 | The calls a sweep reports are exactly the stored ones of its batch, each once, and it has ended every one. |
| `KeyLaws.ReportsKeepOrder` | services/realtime/internal/infrastructure/redis/calls.go:191-209 | They are reported in the order of the batch. |
| `RoomLaws.OnlyTheRightfulChangeARoom` | services/realtime/internal/infrastructure/redis/group_rooms.go:330-337 | Over every run a stored room changes only by a free user joining it in time, by one of its own sockets leaving, ending, presenting or undoing its start, by a newer membership, or by a sweep after its deadline; each leaves exactly the fields it should. |
| `RoomLaws.RingingRoomsAreAlone` | services/realtime/internal/infrastructure/redis/group_rooms.go:331-331 | In every reachable store a ringing room has exactly one participant: the first join makes it active. |
| `RoomLaws.JoinSucceedsExactly` | services/realtime/internal/infrastructure/redis/group_rooms.go:331-331 | Exactly a free user in time, under the room's membership revision and with a place left, joins; the room is active then, the joiner comes last, the presenter stays, and it lasts two more hours. |
| `RoomLaws.LeaveTakesOneOut` | services/realtime/internal/infrastructure/redis/group_rooms.go:332-332 | Leaving a live room takes out the leaver and that one socket, leaves everybody else in order, and ends no presentation but the leaver's. |
| `RoomLaws.StartIsLawful` | services/realtime/internal/infrastructure/redis/group_rooms.go:330-330 | Exactly a free user with proper identifiers opens a room in a conversation without one. |
| `RoomLaws.PresentIsLawful` | services/realtime/internal/infrastructure/redis/group_rooms.go:334-334 | Any participant's socket takes over the presentation; only the presenter's own ends it. |
| `RoomLaws.MembershipEndIsLawful` | services/realtime/internal/infrastructure/redis/group_rooms.go:335-335 | A membership change ends exactly the observed room, if it was stored under an older membership. |
| `RoomLaws.OtherRoomsKeepTheirKeys` | services/realtime/internal/infrastructure/redis/group_rooms.go:331-331 | In any store a join renews no key that names another room. |
| `RoomLaws.MembershipEndFreesTheConversation` | services/realtime/internal/infrastructure/redis/group_rooms.go:335-335 | In any store the conversation is free after its room ended for a membership change. |
| `GroupCallLaws.StartIsAdoptedExactly` | frontend-app/src/app/home/group-call-facade.service.ts:476-522 | A client without a room adopts exactly the start of one it has not seen end, when it is free, or asks or is called in that conversation; every other snapshot changes nothing. |
| `GroupCallLaws.SnapshotIsTakenExactly` | frontend-app/src/app/home/group-call-facade.service.ts:476-583 | A client that follows a room takes exactly its newer snapshots and an answer to its own synchronization that is not older; the open microphone makes it active, and only the awaited start or join settles its request. |
| `GroupCallLaws.SearchFindsItsConversation` | frontend-app/src/app/home/group-call-facade.service.ts:150-155 | A search is begun exactly by a client that is free or ringing and not searching, and then adopts exactly a live start in its own conversation. |
| `GroupCallLaws.OtherGenerationIsIgnored` | frontend-app/src/app/home/group-call-facade.service.ts:595-604 | Frames of another generation, and a synchronized room of another conversation, change nothing. |
| `GroupCallClient.RoomIsKeptExactly` | frontend-app/src/app/home/group-call-facade.service.ts:478-481 | A client with an established room, given any frames of any rooms the server can have sent, shows its room until that room's end arrives exactly when no full end of another room with a support reference comes before it. |
| `GroupCallClient.EstablishedClientConverges` | frontend-app/src/app/home/group-call-facade.service.ts:595-604 | As long as none does, frames of any rooms leave the client, up to its room's end, at the newest of what it showed and received of that room, and that end terminates it. |
| `GroupCallClient.IntruderDisplaces` | frontend-app/src/app/home/group-call-facade.service.ts:478-481 | A full end of another room with a support reference terminates the call without retiring the shown room if its revision is higher than the applied one; otherwise it stays shown and every snapshot of the own room is refused. |
| `GroupCallClient.LateEndTearsDownAnotherCall` | frontend-app/src/app/home/group-call-facade.service.ts:478-481 | A concrete run of the server and a late frame of it that ends another call. |
| `GroupCallClient.LateEndReplacesAnotherCall` | frontend-app/src/app/home/group-call-facade.service.ts:478-481 | A concrete run in which the ended room stays shown and the own room's next snapshot is refused. |
| `GroupCallClient.OtherRoomIsIgnored` | frontend-app/src/app/home/group-call-facade.service.ts:595-604 | Every other frame of another room changes nothing. |
| `GroupCallClient.ReceiveKeepsProper` | frontend-app/src/app/home/group-call-facade.service.ts:476-522 | Whatever genuine frames arrive, what is shown is a held room at the applied revision that is not retired, or an end no newer than the applied revision. |
| `GroupCallClient.OrderDoesNotMatter` | frontend-app/src/app/home/group-call-facade.service.ts:571-583 | Two clients that start alike and receive the same frames of any rooms, in any order and any number of times, show the same room, as long as none ends it or forces another room on them. |
| `GroupCallClient.HeldCompatible` | services/realtime/internal/infrastructure/redis/group_rooms.go:330-337 | Room identifier and state revision determine a snapshot, and an ended snapshot is newer than any that has not ended. |
| `GroupCallClient.RetiredStays` | frontend-app/src/app/home/group-call-facade.service.ts:926-934 | A delayed start of a retired room is taken at some point among genuine frames of any rooms exactly when 32 rooms, shown before or not, have been retired after it; until then it is refused. |
| `GroupCallClient.EndedRoomIsIgnoredExactly` | frontend-app/src/app/home/group-call-facade.service.ts:478-481 | Frames of a room after its end was seen change nothing exactly when none of them is a full end with a support reference or nothing was under way; otherwise whatever was under way is dropped. |
| `GroupCallClient.RepeatedEndCancelsDiscovery` | frontend-app/src/app/home/group-call-facade.service.ts:478-481 | A repeated full end cancels a discovery begun in another conversation, without the support reference it does not. |
| `GroupCallClient.GroupCallFacade.RetireRoom` | frontend-app/src/app/home/group-call-facade.service.ts:926-934 | The loop keeps the newest 32 retired rooms. |
| `GroupCallClient.GroupCallFacade.DiscoverAndStart` | frontend-app/src/app/home/group-call-facade.service.ts:150-155 | A discovery is begun in a free phase, without a room. |
| `GroupCallClient.EndIsSeen` | frontend-app/src/app/home/group-call-facade.service.ts:800-812 | An established client accepts every genuine end of its room, however late. |
| `GroupCallClient.GroupCallFacade.AcceptsRoomEvent` | frontend-app/src/app/home/group-call-facade.service.ts:595-604 | Which room events are taken: newer revisions of the shown room, or a started room that is not retired. |
| `GroupCallClient.GroupCallFacade.HandleEvent` | frontend-app/src/app/home/group-call-facade.service.ts:476-520 | A room event changes the shown room as the frame function says. |
| `GroupCallClient.GroupCallFacade.HandleSynced` | frontend-app/src/app/home/group-call-facade.service.ts:559-583 | The answer to a synchronization request is applied unless it is older than what is shown. |
| `GroupCallClient.GroupCallFacade.HandleTerminalRoom` | frontend-app/src/app/home/group-call-facade.service.ts:800-812 | A newer end of the shown room retires it. |
| `ConversationHistory.UnreadIsRecount` | services/shared/messaging/sender.go:100-155 | In every reachable state the stored unread counter of an active member equals the number of others' messages after the read position. |
| `ConversationHistory.ReadingNeverMovesBack` | services/realtime/internal/infrastructure/postgres/read_cursor_repository.go:78-92 | Between any two moments the log only grows at its end and no read position moves back, not even over leaving and rejoining. |
| `Listings.HistoryShowsTheBox` | services/chat/internal/persistence/postgres/history_repository.go:27-81 | In every reachable state the history of a member, newest first, is exactly what arrived since the latest join and has not expired. |
| `Listings.ReconciliationShowsTheBox` | services/realtime/internal/infrastructure/postgres/reconciliation_repository.go:58-66 | The rows reconciliation reads after a position are exactly the later unexpired messages that arrived since the latest join, in order. |
| `Listings.ReplayShowsTheBox` | services/shared/messaging/delivery.go:27-31 | A delivery row is replayed exactly when its user is a member now and its unexpired message arrived since the latest join. |
| `Listings.MomentsGrow` | services/realtime/internal/infrastructure/postgres/reconciliation_repository.go:58-131 | The logs a client reads in the course of one run grow as catching up needs it. |
| `Listings.CatchingUpGetsTheBox` | frontend-app/src/app/home/home.component.ts:1297-1344 | A client that stays a member and follows the pages to the end of a run receives in order only messages that arrived since its join, and all of them after its position that do not expire. |
| `ConversationHistory.BoundaryAdmitsTheBox` | services/chat/internal/persistence/postgres/conversation_repository.go:375-380 | What the listings admit for a user is exactly what arrived since the latest join and has not expired; a former member sees nothing. |
| `ConversationHistory.GroupsAreOwned` | services/chat/internal/persistence/postgres/conversation_repository.go:328-595 | A group that exists has exactly one active owner, the one its row names, and at most 16 active members; its sequences are exactly 1 up to the next one. |
| `ConversationHistory.RevisionsAreConsecutive` | services/chat/internal/persistence/postgres/conversation_repository.go:616-663 | The events of a group carry revisions 1, 2, 3 and so on up to the current one, and only the last one of a group that is gone announces its deletion. |
| `ConversationHistory.EveryoneIsTold` | services/chat/internal/persistence/postgres/conversation_repository.go:616-663 | A command either leaves all existing memberships alone or changes one and addresses everyone active before or after. |
| `ConversationHistory.OneMessagePerKey` | services/shared/messaging/sender.go:62-100 | No two stored messages share sender and client identifier, in any conversations. |
| `ConversationHistory.RetryReturnsTheFirst` | services/shared/messaging/sender.go:63-96 | After a stored send, whatever happens in between, a retry stores nothing: it returns the first message, or reports that it has expired. |
| `ConversationHistory.RevisionFixesMembers` | services/chat/internal/persistence/postgres/conversation_repository.go:328-595 | As long as a group shows the same revision its active members are the same. |
| `ConversationHistory.StepKeeps` | services/chat/internal/persistence/postgres/conversation_repository.go:328-684 | Every transaction keeps the invariants of logs, cursors, ownership, uniqueness, boxes and events, and moves conversations only forward. |
| `ConversationInvariant.AppendedKeeps` | services/shared/messaging/sender.go:100-155 | Appending a message keeps every member's counter equal to the recount. |
| `ConversationInvariant.AdvancedKeeps` | services/realtime/internal/infrastructure/postgres/read_cursor_repository.go:78-92 | Reading keeps the counters equal to the recount. |
| `ConversationInvariant.AdvancedCursor` | services/realtime/internal/infrastructure/postgres/read_cursor_repository.go:78-92 | The new read position is the largest of the old one, the boundary and the requested existing sequence. |
| `ConversationInvariant.RecountCounts` | services/realtime/internal/infrastructure/postgres/read_cursor_repository.go:82-83 | The recount is the number of the messages it should count. |
| `ConversationInvariant.JoinedPrepared` | services/chat/internal/persistence/postgres/conversation_repository.go:355-380 | Joining or rejoining starts at the next sequence with nothing unread and keeps all invariants of the group. |
| `ConversationInvariant.LeftPrepared` | services/chat/internal/persistence/postgres/conversation_repository.go:382-388 | Removing a member keeps them, and the member is among the extra recipients. |
| `ConversationInvariant.WithRolePrepared` | services/chat/internal/persistence/postgres/conversation_repository.go:455-462 | Changing a role keeps the one owner. |
| `ConversationInvariant.HandedPrepared` | services/chat/internal/persistence/postgres/conversation_repository.go:505-517 | Transferring ownership leaves exactly one owner, the new one. |
| `ConversationRuns.GroupCommand` | services/chat/internal/persistence/postgres/conversation_repository.go:328-528 | On every branch a membership command refuses or publishes a change that keeps the group's invariants. |
| `ConversationRuns.LeaveCommand` | services/chat/internal/persistence/postgres/conversation_repository.go:530-595 | Leaving and deleting refuse, publish a departure, or drop the group. |
| `GroupLaws.OnlyManagersChangeAGroup` | services/chat/internal/persistence/postgres/conversation_repository.go:328-595 | Over every run a membership changes only by an active owner or admin or by a member who leaves, the owner's own row and the ownership only by the owner; a group vanishes only by its owner, who must be alone in it to leave; a log grows only by what an active member sends or by the record of that member's command. |
| `GroupLaws.AddSucceedsExactly` | services/chat/internal/persistence/postgres/conversation_repository.go:328-407 | Exactly an active owner or admin adds an inactive verified account while a place is left; it joins as a plain member from the next message on. |
| `GroupLaws.RemoveSucceedsExactly` | services/chat/internal/persistence/postgres/conversation_repository.go:328-407 | Exactly an active owner or admin removes an active known member other than the owner; the row stays, inactive. |
| `GroupLaws.RenameSucceedsExactly` | services/chat/internal/persistence/postgres/conversation_repository.go:409-432 | Exactly an active owner or admin renames, which moves only the revision. |
| `GroupLaws.RoleSucceedsExactly` | services/chat/internal/persistence/postgres/conversation_repository.go:434-479 | Exactly an active owner or admin gives an active known member other than the owner the role asked for, never that of owner. |
| `GroupLaws.TransferSucceedsExactly` | services/chat/internal/persistence/postgres/conversation_repository.go:481-528 | Exactly the active owner hands the group to another active known member and stays as an admin. |
| `GroupLaws.LeaveSucceedsExactly` | services/chat/internal/persistence/postgres/conversation_repository.go:530-573 | Every active member leaves, the owner exactly when alone, which deletes the group with its messages. |
| `GroupLaws.DeleteSucceedsExactly` | services/chat/internal/persistence/postgres/conversation_repository.go:575-595 | Exactly the active owner deletes the group with its messages; all other conversations stay. |
| `GroupLaws.FoundSucceedsExactly` | services/chat/internal/persistence/postgres/conversation_repository.go:161-201 | Exactly a founder and invited who are verified and at most sixteen form a group; the founder owns it, everybody starts before the first message. |
| `GroupLaws.DirectSucceedsExactly` | services/chat/internal/persistence/postgres/conversation_repository.go:52-99 | Two different accounts have a direct conversation afterwards, a new one only when there was none. |
| `GroupLaws.OneDirectConversation` | services/chat/internal/persistence/postgres/conversation_repository.go:52-99 | Over every run two accounts have at most one direct conversation, whichever of them opened it. |
| `GroupLaws.SendSucceedsExactly` | services/shared/messaging/sender.go:48-168 | A message is stored exactly for an active member under a fresh client identifier who mentions only other active members; each refusal has its exact condition, told from the logs. |
| `GroupLaws.SentIs` | services/shared/messaging/sender.go:100-168 | It comes last, expires exactly after the retention, and goes to everyone else who is active. |
| `GroupLaws.SentIsCounted` | services/shared/messaging/sender.go:150-155 | It is one more unread message for each other active member and for nobody else. |
| `GroupLaws.ReadSucceedsExactly` | services/realtime/internal/infrastructure/postgres/read_cursor_repository.go:19-99 | Exactly active members read; the answer is the largest of the old position, the boundary and the requested existing sequence, and the other party or the other active members hear of it. |
| `GroupLaws.ReadWrites` | services/realtime/internal/infrastructure/postgres/read_cursor_repository.go:78-92 | Reading writes that one position, and nothing when it does not move. |
| `GroupLaws.EveryDatabaseQualifies` | services/chat/internal/persistence/postgres/conversation_repository.go:328-684 | What the laws on one command ask of the database holds of every database a run reaches. |
| `MessageStore.MessageStore.SendMessage` | services/shared/messaging/sender.go:48-168 | The send transaction is the send function: not found, conflict, expired, first message again, invalid mention rolled back, or stored. |
| `MessageStore.MessageStore.RecipientIds` | services/shared/messaging/sender.go:170-184 | The row loop returns every other active member once. |
| `MessageStore.MessageStore.Insert` | services/shared/messaging/sender.go:100-155 | The statements that store a message. |
| `MessageStore.MessageStore.AdvanceCursor` | services/realtime/internal/infrastructure/postgres/read_cursor_repository.go:19-99 | The read transaction is the advance function. |
| `MessageStore.MessageStore.PeerIds` | services/realtime/internal/infrastructure/postgres/read_cursor_repository.go:49-72 | The row loop returns every other party once. |
| `MessageStore.MessageStore.WriteGroupSystemEntry` | services/chat/internal/persistence/postgres/conversation_repository.go:666-684 | A system entry is a message of the actor under a generated identifier. |
| `MessageStore.MessageStore.WriteGroupEvent` | services/chat/internal/persistence/postgres/conversation_repository.go:616-663 | The loops address every active member and every extra recipient once, and authorize the active members. |
| `MessageStore.MessageStore.Create` | services/chat/internal/application/groups.go:63-88 | Duplicates and the owner are dropped from the invitation; too many or nil members are refused; otherwise the group is stored. |
| `MessageStore.MessageStore.CreateGroupRows` | services/chat/internal/persistence/postgres/conversation_repository.go:161-201 | Counting verified accounts decides, and the loop inserts one member and one cursor row each. |
| `MessageStore.MessageStore.CreateConversation` | services/chat/internal/persistence/postgres/conversation_repository.go:52-99 | A direct conversation exists once for each pair. |
| `MessageStore.MessageStore.Add` | services/chat/internal/persistence/postgres/conversation_repository.go:328-407 | Adding a member is the add function. |
| `MessageStore.MessageStore.Remove` | services/chat/internal/persistence/postgres/conversation_repository.go:328-407 | Removing a member is the remove function. |
| `MessageStore.MessageStore.RenameGroup` | services/chat/internal/persistence/postgres/conversation_repository.go:409-432 | Renaming is the rename function. |
| `MessageStore.MessageStore.SetRole` | services/chat/internal/persistence/postgres/conversation_repository.go:434-479 | Changing a role is the role function. |
| `MessageStore.MessageStore.Transfer` | services/chat/internal/persistence/postgres/conversation_repository.go:481-528 | Transferring ownership is the transfer function. |
| `MessageStore.MessageStore.Leave` | services/chat/internal/persistence/postgres/conversation_repository.go:530-573 | Leaving is the leave function. |
| `MessageStore.MessageStore.Delete` | services/chat/internal/persistence/postgres/conversation_repository.go:575-595 | Deleting is the delete function. |
| `MessageStore.CountDecides` | services/shared/messaging/sender.go:120-132 | Counting the matching rows of distinct identifiers tells whether all of them match. |
| `Reconciliation.TraversalIsComplete` | frontend-app/src/app/home/home.component.ts:1297-1344 | Following next_after_sequence until has_more is false gives a strictly increasing list of visible messages with every visible message without expiry up to the last watermark, whatever is sent between the pages. |
| `Reconciliation.TraversalEnds` | frontend-app/src/app/home/home.component.ts:1297-1344 | Once the log stops growing the traversal ends within the number of full pages that fit. |
| `Reconciliation.PageIsSound` | services/realtime/internal/infrastructure/postgres/reconciliation_repository.go:29-131 | A page is strictly increasing, after the requested position, from the boundary on, unexpired, and full when there is more. |
| `Reconciliation.WatermarkIsLast` | services/realtime/internal/infrastructure/postgres/reconciliation_repository.go:58-66 | The watermark is the sequence of the newest message, visible or not. |
| `Reconciliation.PageIsFull` | services/realtime/internal/infrastructure/postgres/reconciliation_repository.go:29-131 | A page leaves out nothing up to its last message, and nothing at all when it is the last. |
| `Reconciliation.Reconcile` | services/realtime/internal/infrastructure/postgres/reconciliation_repository.go:29-131 | The row loop with its cap and truncation answers exactly the page, and refuses exactly non-members and malformed requests. |
| `Reconciliation.FollowPages` | frontend-app/src/app/home/home.component.ts:1297-1344 | The client's loop over answers is the traversal. |
| `Delivery.DeliveryQueue.ReplayPending` | services/realtime/internal/application/hub.go:1854-1883 | Each page is checked against the memberships of its own moment; nothing is sent twice, exactly what was sent is marked, a socket that takes everything leaves nothing replayable, and under unchanged memberships exactly the oldest replayable messages were sent, in order. |
| `Delivery.DeliveryQueue.Pending` | services/shared/messaging/delivery.go:26-57 | The first undelivered rows of the device that current membership still admits. |
| `Delivery.DeliveryQueue.MarkDelivered` | services/shared/messaging/delivery.go:60-66 | Exactly the named rows are marked. |
| `Delivery.ReplayedAreVisible` | services/shared/messaging/delivery.go:27-31 | Only messages the user may see now are replayed. |
| `Delivery.MarkingAStart` | services/realtime/internal/application/hub.go:1854-1883 | Marking a start of the replayable rows leaves the rest of them and every row that cannot be replayed. |
| `Delivery.List` | services/chat/internal/persistence/postgres/history_repository.go:27-81 | A history page holds the newest visible messages below a position; only a member gets one. |
| `Delivery.HistoryPagesMeet` | services/chat/internal/persistence/postgres/history_repository.go:75-80 | A page and its cursor stand together for everything visible below the position: consecutive pages meet without gap or overlap. |
| `GroupCallLease.SameRevisionMeansMembers` | services/realtime/internal/infrastructure/postgres/group_call_repository.go:23-67 | A lease that shows the revision of a room, taken when the room was stored or any time later, has every participant of that room as an active member. |
| `GroupCallLease.FilterRemovesNobody` | services/realtime/internal/application/hub.go:1436-1482 | The roster filter shows a recipient the whole live room or nothing, however late the snapshot is delivered. |
| `GroupCallLease.OnlyMembersAreShown` | services/realtime/internal/application/hub.go:1436-1482 | Even a final snapshot shows active members only, and only to one of them. |
| `GroupCallLease.FinalSnapshotReachesEveryMember` | services/realtime/internal/application/hub.go:1436-1482 | The final snapshot of a room, however late it is delivered, reaches every active member and nobody else, with exactly the participants who are still members, in order, and the presenter if still one of them; one for a membership change waits for that revision. |
| `GroupCallLease.LeaseIsExact` | services/realtime/internal/infrastructure/postgres/group_call_repository.go:23-67 | Exactly the active members of an existing group get a lease, on its current revision and members. |
| `GroupCallLease.ActAllKeeps` | services/realtime/internal/application/hub.go:899-1170 | The joint invariant of rooms and memberships holds in every run of both systems. |
| `GroupCallLease.StartKeeps` | services/realtime/internal/application/hub.go:944-1028 | Starting under a lease keeps it. |
| `GroupCallLease.JoinKeeps` | services/realtime/internal/application/hub.go:1029-1062 | Joining under a lease keeps it. |
| `GroupCallLease.ChatKeeps` | services/chat/internal/persistence/postgres/conversation_repository.go:328-595 | Every transaction of the message database keeps it. |
| `GroupCallLease.RoomKeeps` | services/realtime/internal/infrastructure/redis/group_rooms.go:330-337 | Every other script keeps it: rosters only shrink outside a lease. |
| `GroupCallLease.AuthorizedGroupRoom` | services/realtime/internal/application/hub.go:1436-1482 | The loops of the filter compute the authorized room. |
| `GroupAccessProofs.RevisionNeverDecreases` | frontend-app/src/app/home/home-group-access-facade.service.ts:82-185 | Over any lists, events, lookups and departures a group's revision never decreases. |
| `GroupAccessProofs.NothingReturnsBelowARemoval` | frontend-app/src/app/home/home-group-access-facade.service.ts:82-185 | After a removal at some revision every accepted or authorized projection has a higher one. |
| `GroupAccessProofs.StaleLookupNeverAuthorizes` | frontend-app/src/app/home/home-group-access-facade.service.ts:293-418 | A lookup under way when a departure raises its fence never authorizes and never lifts the quarantine, whatever it answers and whenever. |
| `GroupAccessProofs.DepartingSeesNothingNewer` | frontend-app/src/app/home/home-group-access-facade.service.ts:210-272 | While a departure is pending nothing newer than the projection being left is authorized. |
| `GroupAccessProofs.LeavingRemoves` | frontend-app/src/app/home/home-group-access-facade.service.ts:224-250 | A departure that succeeds while the projection is the one that was left removes the group at that revision. |
| `GroupAccessProofs.SupersededLookupAuthorizes` | frontend-app/src/app/home/home-group-access-facade.service.ts:338-367 | In every reachable record a superseded lookup authorizes exactly when it answers with a newer projection above the last removal, no departure is pending or waits for its reconciliation, and the lookup did not begin before a raised fence. |
| `GroupAccessProofs.SupersededLookupMayAuthorize` | frontend-app/src/app/home/home-group-access-facade.service.ts:338-367 | A concrete run in which a superseded lookup authorizes. |
| `GroupAccessProofs.EveryStepOk` | frontend-app/src/app/home/home-group-access-facade.service.ts:60-448 | Every event keeps the fences below the revision, grants only above the barrier and removes only up to it. |
| `GroupAccessLaws.CurrentLookupAuthorizesExactly` | frontend-app/src/app/home/home-group-access-facade.service.ts:310-387 | In every reachable record the answer to the latest request authorizes exactly when it is about the group, at least the lookup's target and the record's revision, above the last removal, not overtaken by a departure or a fence, and no observed removal settles it first; the record shows that projection then. |
| `GroupAccessLaws.CurrentLookupFails` | frontend-app/src/app/home/home-group-access-facade.service.ts:388-411 | A current lookup that finds nothing removes the group; one that fails is reported and leaves the group as it was, except that it ends a departure the group has moved on from. |
| `GroupAccessLaws.UnfitAnswerIsReported` | frontend-app/src/app/home/home-group-access-facade.service.ts:358-367 | A current answer that does not fit is reported as retryable and changes nothing else. |
| `GroupAccessLaws.SupersededAnswerIsRepeated` | frontend-app/src/app/home/home-group-access-facade.service.ts:338-367 | A superseded answer is repeated, for the latest request, exactly when no departure is pending and the group is not known to be removed, or it is fenced news. |
| `GroupAccessLaws.SupersededFailureIsRepeated` | frontend-app/src/app/home/home-group-access-facade.service.ts:388-392 | A superseded lookup that fails is repeated unless the group is known to be removed. |
| `GroupAccessLaws.OvertakingAnswerHides` | frontend-app/src/app/home/home-group-access-facade.service.ts:311-319 | An answer newer than the projection being left hides the group and is not repeated. |
| `GroupAccessLaws.FencedAnswerHides` | frontend-app/src/app/home/home-group-access-facade.service.ts:320-329 | An answer from before a fence hides the group, whatever it found. |
| `GroupAccessLaws.AnswerSettlesRemoval` | frontend-app/src/app/home/home-group-access-facade.service.ts:330-337 | A removal observed while leaving is settled by the next answer. |
| `GroupAccessLaws.LookupsAskForTheNewest` | frontend-app/src/app/home/home-group-access-facade.service.ts:282-309 | Over every run the flag stands only while a lookup is under way, no lookup runs ahead of the requests, and one for the latest request asks for the newest revision anything has wanted. |
| `GroupAccessLaws.MembershipNews` | frontend-app/src/app/home/home-group-access-facade.service.ts:161-185 | Newer news hides the group and looks it up, a deletion removes it, and anything not newer does nothing. |
| `GroupAccessLaws.ProjectionTakenExactly` | frontend-app/src/app/home/home-group-access-facade.service.ts:82-99 | A projection is taken exactly when it is not older than the record and above the last removal. |
| `GroupAccessLaws.ListRestoresExactly` | frontend-app/src/app/home/home-group-access-facade.service.ts:105-149 | A list restores a hidden group exactly when no departure or reconciliation is pending and its revision is current, and cancels the lookup. |
| `GroupAccessLaws.CachedIsKeptExactly` | frontend-app/src/app/home/home-group-access-facade.service.ts:145-149 | The cached group stays exactly when the list changes nothing, the group is not hidden and no removal is known. |
| `GroupAccessLaws.MissingIsRemovedExactly` | frontend-app/src/app/home/home-group-access-facade.service.ts:150-159 | A missing group is removed unless it is hidden or known to be removed, and lookups under way are out of date then. |
| `GroupAccessLaws.RemovalTakesEffect` | frontend-app/src/app/home/home-group-access-facade.service.ts:68-76 | A definitive removal takes effect unless it is known already. |
| `GroupAccessLaws.KnownRevisionIsRaised` | frontend-app/src/app/home/home-group-access-facade.service.ts:60-66 | Loading a projection elsewhere only raises the known revision. |
| `GroupAccessLaws.HiddenGroupsAreLookedUp` | frontend-app/src/app/home/home-group-access-facade.service.ts:187-208 | Verifying or retrying a hidden group leaves a lookup for it under way. |
| `GroupAccessLaws.DepartureBegins` | frontend-app/src/app/home/home-group-access-facade.service.ts:210-223 | A departure is announced once, fixes the revision left and cancels the lookup. |
| `GroupAccessLaws.DepartureSucceedsExactly` | frontend-app/src/app/home/home-group-access-facade.service.ts:224-250 | A successful departure removes the group at the revision left or, when it has moved on, hides it behind a new fence and looks it up afresh. |
| `GroupAccessLaws.DepartureFailsExactly` | frontend-app/src/app/home/home-group-access-facade.service.ts:251-266 | A failed departure hides the group and looks it up afresh, unless its removal was observed. |
| `GroupAccessLaws.LateDepartureIsIgnored` | frontend-app/src/app/home/home-group-access-facade.service.ts:224-266 | Answers of other departures do nothing. |
| `GroupListLaws.ListShowsExactly` | frontend-app/src/app/home/home-group-access-facade.service.ts:101-149 | A list shows of each group exactly what its own record allows, whatever the other entries are. |
| `GroupListLaws.NothingHiddenIsShown` | frontend-app/src/app/home/home-group-access-facade.service.ts:101-149 | No list shows a group that is hidden or known to be removed afterwards. |
| `GroupListLaws.MissingGroupsAreGone` | frontend-app/src/app/home/home-group-access-facade.service.ts:150-159 | Every cached group an authoritative list leaves out is hidden or removed afterwards; every group it names is left alone. |
| `GroupListLaws.LastCachedCounts` | frontend-app/src/app/home/home-group-access-facade.service.ts:101-103 | Of several cached entries of a group the last one counts. |
| `HomeGroupAccessFacade.GroupsAreIndependent` | frontend-app/src/app/home/home-group-access-facade.service.ts:38-42 | A group's record and announcements over a run of the facade are those of its own events, so what holds of one record holds of every group. |
| `HomeGroupAccessFacade.HomeGroupAccessFacade.MarkGroupAuthorized` | frontend-app/src/app/home/home-group-access-facade.service.ts:60-66 | Raising the known revision. |
| `HomeGroupAccessFacade.HomeGroupAccessFacade.RemoveDefinitively` | frontend-app/src/app/home/home-group-access-facade.service.ts:68-76 | A definitive removal, unless already known. |
| `HomeGroupAccessFacade.HomeGroupAccessFacade.AcceptProjection` | frontend-app/src/app/home/home-group-access-facade.service.ts:82-99 | Whether a projection is taken, and what it changes. |
| `HomeGroupAccessFacade.HomeGroupAccessFacade.ProjectGroup` | frontend-app/src/app/home/home-group-access-facade.service.ts:105-149 | One group of a list: hidden while being left, restored from quarantine, skipped, taken, or kept from the cache. |
| `HomeGroupAccessFacade.HomeGroupAccessFacade.ProjectConversationList` | frontend-app/src/app/home/home-group-access-facade.service.ts:101-159 | The loops over the list and over missing groups are the corresponding events, and the result is what each entry shows. |
| `HomeGroupAccessFacade.HomeGroupAccessFacade.MembershipEvent` | frontend-app/src/app/home/home-group-access-facade.service.ts:161-185 | A membership event removes the group, or hides it and looks it up. |
| `HomeGroupAccessFacade.HomeGroupAccessFacade.CreatedEvent` | frontend-app/src/app/home/home-group-access-facade.service.ts:187-189 | A created conversation is looked up. |
| `HomeGroupAccessFacade.HomeGroupAccessFacade.VerifyGroup` | frontend-app/src/app/home/home-group-access-facade.service.ts:191-196 | Verification hides the group and looks it up. |
| `HomeGroupAccessFacade.HomeGroupAccessFacade.QuarantineGroupForVerification` | frontend-app/src/app/home/home-group-access-facade.service.ts:198-202 | Hiding without a lookup. |
| `HomeGroupAccessFacade.HomeGroupAccessFacade.RetryQuarantined` | frontend-app/src/app/home/home-group-access-facade.service.ts:204-208 | The loop looks up every hidden group that has no lookup in flight. |
| `HomeGroupAccessFacade.HomeGroupAccessFacade.BeginDeparture` | frontend-app/src/app/home/home-group-access-facade.service.ts:210-223 | A departure fixes the revision being left and cancels the lookup. |
| `HomeGroupAccessFacade.HomeGroupAccessFacade.DepartureCompleted` | frontend-app/src/app/home/home-group-access-facade.service.ts:224-250 | A successful departure removes the group, or raises the fence and looks it up afresh. |
| `HomeGroupAccessFacade.HomeGroupAccessFacade.DepartureRejected` | frontend-app/src/app/home/home-group-access-facade.service.ts:251-266 | A failed departure hides the group and looks it up afresh. |
| `HomeGroupAccessFacade.HomeGroupAccessFacade.RequestGroup` | frontend-app/src/app/home/home-group-access-facade.service.ts:282-291 | A request joins the lookup in flight or begins one. |
| `HomeGroupAccessFacade.HomeGroupAccessFacade.FetchLatest` | frontend-app/src/app/home/home-group-access-facade.service.ts:293-309 | A lookup remembers the request, the departure generation and the target. |
| `HomeGroupAccessFacade.HomeGroupAccessFacade.LookupAnswered` | frontend-app/src/app/home/home-group-access-facade.service.ts:310-387 | What an answer does, guard by guard. |
| `HomeGroupAccessFacade.HomeGroupAccessFacade.LookupMismatched` | frontend-app/src/app/home/home-group-access-facade.service.ts:338-367 | An answer that no longer fits is dropped, raises the revision, authorizes, or is repeated. |
| `HomeGroupAccessFacade.HomeGroupAccessFacade.LookupMatched` | frontend-app/src/app/home/home-group-access-facade.service.ts:368-387 | An answer that fits authorizes, unless the group is being left. |
| `HomeGroupAccessFacade.HomeGroupAccessFacade.LookupRejected` | frontend-app/src/app/home/home-group-access-facade.service.ts:388-411 | A failed lookup is repeated, removes the group, or reports that it may be retried. |
| `HomeGroupAccessFacade.HomeGroupAccessFacade.LookupResponds` | frontend-app/src/app/home/home-group-access-facade.service.ts:305-418 | An answer is handled and the subscription ends. |
| `HomeGroupAccessFacade.HomeGroupAccessFacade.FinishLookup` | frontend-app/src/app/home/home-group-access-facade.service.ts:305-308 | The end of a subscription clears the flag and repeats a superseded lookup. |
| `HomeGroupAccessFacade.HomeGroupAccessFacade.DropGroup` | frontend-app/src/app/home/home-group-access-facade.service.ts:436-448 | Marking a group removed. |
| `HomeGroupAccessFacade.HomeGroupAccessFacade.HideGroup` | frontend-app/src/app/home/home-group-access-facade.service.ts:425-434 | Putting a group into quarantine. |
| `Mentions.ServerAndBrowserAgree` | services/shared/messaging/mentions.go:17-53 | For every well-formed text the server's boundary scan and the browser's surrogate test accept the same mention lists. |
| `Mentions.ExactlyTheValidAreAccepted` | frontend-app/src/app/home/message.model.ts:27-47 | Both accept exactly up to sixteen ranges of real users, one behind the other, at least two units long, beginning with an at sign and cutting no surrogate pair. |
| `Mentions.BoundaryIffNoSplit` | frontend-app/src/app/home/message.model.ts:42-47 | An offset of a well-formed text is a scalar boundary exactly when it splits no surrogate pair. |
| `Mentions.ValidateMentions` | services/shared/messaging/mentions.go:17-53 | The scan with its boundary and at-sign sets accepts exactly the valid lists. |
| `Mentions.IsValidMessageMentions` | frontend-app/src/app/home/message.model.ts:27-40 | The browser's loop accepts exactly the valid lists. |
| `MentionEdits.EditKeepsValid` | frontend-app/src/app/home/message.model.ts:64-78 | An edit turns a valid list into a valid list exactly when it does not complete a surrogate pair right after a mention. |
| `MentionEdits.EditOfWellFormedText` | frontend-app/src/app/home/message.model.ts:64-78 | Whatever a well-formed text is edited into, the updated list is valid and every kept mention spells the same text for the same user. |
| `MentionEdits.UpdatedAreKept` | frontend-app/src/app/home/message.model.ts:73-77 | The updated list consists exactly of the mentions outside the edit, moved. |
| `MentionEdits.LoneSurrogateBreaksAnEdit` | frontend-app/src/app/home/message.model.ts:64-78 | A concrete body with a lone surrogate for which an edit leaves an invalid list. |
| `MentionEdits.UpdateMentionRanges` | frontend-app/src/app/home/message.model.ts:64-78 | The two comparison loops and the moving loop compute the updated list. |
| `MentionEdits.CommonPrefixAgrees` | frontend-app/src/app/home/message.model.ts:66-67 | The first loop finds the longest common start. |
| `MentionEdits.CommonSuffixAgrees` | frontend-app/src/app/home/message.model.ts:68-69 | The second loop finds the longest common end outside it. |
| `Mentions.MessageTextSegments` | frontend-app/src/app/home/message.model.ts:50-61 | The segments always spell the body; for a valid list the marked ones are exactly its ranges, otherwise nothing is marked. |
| `MentionNormalization.NormalizeMentionOffsets` | services/shared/messaging/mentions.go:71-85 | Offsets are shifted by the trimmed start, and refused exactly when one lies in it. |
| `MentionNormalization.NormalizedSpellsTheSame` | services/shared/messaging/mentions.go:69-85 | A mention accepted after trimming spells what the submitted range spelled. |
| `MentionNormalization.TrimmedExactly` | services/shared/messaging/mentions.go:69-85 | Trimming takes away white space at both ends, nothing else, and all of it. |
| `MentionNormalization.MentionUserIds` | services/shared/messaging/mentions.go:56-67 | The loop lists the users in the order of their first mention. |
| `MentionNormalization.FirstSeenInOrder` | services/shared/messaging/mentions.go:55-67 | Every mentioned user is listed once, in the order of the first mentions. |
| `GroupPaging.NoGroupTwice` | services/chat/internal/persistence/postgres/conversation_repository.go:220-294 | A traversal never lists a group twice, even when activity raises its key between the pages. |
| `GroupPaging.UnchangedListedOnce` | services/chat/internal/persistence/postgres/conversation_repository.go:220-294 | A finished traversal lists every group that did not change exactly once. |
| `GroupPaging.TraversalEnds` | services/chat/internal/persistence/postgres/conversation_repository.go:220-294 | When no groups are created, full pages list different groups of a fixed set, so their number is bounded. |
| `GroupPaging.CursorsDescend` | services/chat/internal/persistence/postgres/conversation_repository.go:286-292 | Every cursor keeps its lower end at or below its upper end, moves down and keeps the upper end of the first page. |
| `GroupPaging.CursorsAreValid` | services/chat/internal/application/groups.go:107-117 | Every cursor handed out passes the check made when it comes back. |
| `GroupPaging.PageWithoutCursorIsLast` | services/chat/internal/persistence/postgres/conversation_repository.go:284-292 | A page comes without a cursor exactly when it shows everything left to list; otherwise the cursor goes on below it, under the same upper end and for the same archive. |
| `GroupPaging.CursorIsCheckedExactly` | services/chat/internal/application/groups.go:107-117 | A cursor is refused exactly when an end lacks a part or the ends are the wrong way round. |
| `GroupPaging.CompareIsOrder` | services/chat/internal/application/groups.go:119-134 | The key comparison is the lexicographic order. |
| `GroupPaging.ListGroupsPage` | services/chat/internal/persistence/postgres/conversation_repository.go:220-294 | The row loop assembles the page and its next cursor, or reports a group with too many members. |
| `GroupPaging.AssembledRoundTrip` | services/chat/internal/persistence/postgres/conversation_repository.go:266-281 | Assembling the rows of different groups gives the groups back. |
| `RateLimiter.MessagesFewerThanTwice` | services/chat/internal/infrastructure/redis/limiter.go:44-61 | No minute admits more than 119 messages of a user, HTTP and WebSocket sends counted together, whatever else is requested in between. |
| `RateLimiter.FewerThanTwice` | services/realtime/internal/infrastructure/redis/presence.go:394-406 | Any interval as long as the window admits fewer requests than twice the limit. |
| `RateLimiter.BoundIsReached` | services/realtime/internal/infrastructure/redis/presence.go:406-406 | The bound is reached for every limit and every window of more than one moment. |
| `RateLimiter.MessagesReachTheBound` | services/chat/internal/infrastructure/redis/limiter.go:44-61 | 119 messages in a minute are reached over either service or any mixture of both. |
| `RateLimiter.KeysAreSharedExactly` | services/chat/internal/infrastructure/redis/limiter.go:44-54 | Two requests share a counter exactly when they are of one user and both messages, over either service, or of one other bucket or command. |
| `RateLimiter.OneCounter` | services/chat/internal/infrastructure/redis/limiter.go:44-54 | What both services admit under a user's message key is what one counter admits. |
| `RateLimiter.Limiter.Allow` | services/chat/internal/infrastructure/redis/limiter.go:56-61 | The script counts, starts the window on the first count and compares with the limit. |

## Left out

- Negotiation: connection failures, call phases, retired call identifiers, candidates the browser refuses, and the error path that ends a call.
- Group-call offer exchange between several browsers: it is not serialized and both sides roll back.
- Accept compares deadlines as RFC 3339 text; the model compares integer times, which agrees to the whole second.
- Call and room hashes written by older versions, without connection or revision fields.
- Presence: the set of known connections of a user is a parameter; its cleaning while it is read, heartbeats and the connection budget are not modelled.
- Separators inside device and connection identifiers; of a support reference only whether a room event carries one matters (line 479 of the group-call client), its value and its display do not.
- The order in which a room snapshot lists its participants for readers, and their connection identifiers in it.
- GroupCallClient.GroupCallFacade.HandleEvent: a room that was left and may be rejoined, and a rejected leave or end under reconciliation, are not modelled, nor are presentations and media connections.
- GroupCallClient.GroupCallFacade.DiscoverAndStart: a connection that is not ready, a request that cannot be sent and the timeout of the discovery.
- GroupCallClient.GroupCallFacade.HandleSynced: matching of request identifiers and the answer to a rejected leave or end are not modelled; the frame is the answer to the pending request.
- GroupCallClient.GroupCallFacade.HandleTerminalRoom: only the end of the shown room is modelled, not that of one that was left or whose leaving was rejected.
- Retiring a room because the user leaves or ends the call, or because a local error ends it.
- CallFacade.CallFacade.HandleAccepted: the microphone, the phase and the call identifier are not modelled; the event is the one of the current call with an open microphone.
- HomeGroupAccessFacade.HomeGroupAccessFacade.FetchLatest: the branch for an interface without a lookup function, which only reports that the lookup may be retried.
- Message bodies, encryption, names, avatars, archives and the text of system entries.
- Account deletion and anything else that removes single messages.
- The order in which the database returns rows that a query does not order.
- Outbox delivery: an event is modelled as written, not as claimed and published.
- The group read that follows a committed membership change.
- MessageStore.MessageStore.SendMessage: the checks of the request text before the transaction are not modelled; a request reaches the transaction with a trimmed, non-empty body.
- GroupPaging: the query is given by what it may answer; that the sort keys only grow is assumed, since a transaction that waited may store an earlier time.
- GroupPaging: text encoding of the group cursor.
- HomeGroupAccessFacade: records are values in a map, so sharing of one record object between callbacks is not modelled; the projection generation counter is left out because only the component reads it; lookups answer after the call that began them has returned.
- Delivery: a failing database between sending and marking, after which messages are sent again; the clock stands still during one replay.
- Timeouts, lock striping, logging, transport, tokens and configuration: plumbing; a command that timed out counts as one that ran or one that did not.
- User interface, media capture, device selection and the rest of the browser's connection object.
- Refresh-token rotation, session versions and address lists: outside the coordination logic.
