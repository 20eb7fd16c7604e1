# BlueChat in Dafny

BlueChat is an anonymous chat bot. Under its messages it is a set of state machines over two
stores: Redis holds queues, pairings, mirrors and message maps, Postgres holds users, rooms,
member rows and a ledger of coins. This project models both stores and the handlers that work
on them as one transition system, proves what every run of it keeps, and does the same for the
relay inside chat rooms and for the two rate limiters.

## How it is laid out

- `Basics`, `SortedSets`, `Ledger`: identifiers, Redis sorted sets (order by score, then by
  bytes), coins and their transactions.
- `MatchQueue`, `MatchOrder`, `WaitingQueue`: the 1:1 queue and its match-or-enqueue script.
- `Database`, `RoomInvariant`, `RoomTransactions`, `Postgres`: accounts, rooms and the
  transactions on them.
- `World`, `ChatHandlers`, `RoomHandlers`, `RequestHandlers`: the whole state and what each
  handler does to it, as functions. `Stores`, `RedisKeys`, `ChatBot`, `RoomBot`: the same
  handlers as methods that change the stores step by step, in the order of the source, each
  proved to do what its function says.
- `WorldInvariant`, `ChatSteps`, `ChatEndings`, `MissingGuards`, `RoomSteps`, `RoomFlows`,
  `RequestSteps`, `BotRuns`: the invariant of all states, which handlers keep it, exactly when
  the others do, and runs.
- `Interleavings`, `LateRuns`: the same when a handler passes its guard and commits only after
  its user has done something else.
- `FillOrder`, `FillExactly`, `NoMissedRooms`, `NoMissedRoomRuns`: whom the fill loop takes, and
  that nobody is left waiting beside a free place.
- `Effects`, `ChatOutcomes`, `RequestOutcomes`, `FillEffects`, `RoomOutcomes`,
  `MemberOutcomes`, `Meanings`: what every event means to everybody, told by partners, places
  in queues, rooms, keyboards, jobs, coins and ledger entries, and not by the handlers.
- `Guarantees`, `RoomMoney`, `SearchFates`, `RoomEvolution`, `Counterexamples`, `LostCoins`:
  what follows over runs for users, coins, rooms and seekers.
- `Relay`, `RelaySteps`, `RelayRuns`, `SilentRooms`, `RelayKeys`: messages inside rooms, where
  they go, their two indexes, deletion, editing, replies and the purge.
- `TokenBucket`, `SlidingWindow`: the limiters.

A method and the function that specifies it share a name: `RoomBot.LeaveFlow` is the code of
the handler, `RoomHandlers.LeaveFlow` what it does to the state, and
`MemberOutcomes.LeaveOutcome` what that means to the people involved.

## Assumptions

- A handler, a job, a database transaction and a Redis script are each one atomic step, except
  in `Interleavings`, where searching, creating a room and starting a chat may be suspended
  between their guard and their commit.
  `deduct_coins` and `refund_coins` (db/queries.py:261-282) take no row lock, so for them this
  is an assumption and not a consequence.
- A crash in the middle of a handler is not modelled, except that the mirror is shown to heal
  from any state and the sweep to restore from any state. A restart of the bot drops all
  pending timeout jobs.
- Keys do not expire by themselves, except for purge offers, the spam block, and the window
  keys, whose expiry is shown to be harmless.
- A user id is its decimal text; the ids in queues are those of existing users. The gender in
  a profile and the saved preference are arguments of the handler that reads them. New request
  ids and message ids are not in use. The buttons of a chat request reach only its target.
- Sending a message either fails or yields an id new in that chat; a sticker may lose its
  picture after its label was sent.
- Clocks: readings are reals. The token bucket's never go back; successive checks of one
  user by the spam guard have rising readings. Limits have the default values of the source.

## Where the code does less than it says

Each point comes with a run that shows it and with the exact condition, told from the state
before the step.

- `/next` has no room check (handlers/chat/session.py:131-190): `Counterexamples.NextFromARoom`,
  `MissingGuards.NextChatExactly`.
- The filtered search does not ask whether its caller waits (handlers/search.py:250-354):
  `Counterexamples.SearchFromTheQueue`, `MissingGuards.RunSearchExactly`. These two are the only
  steps that harm the invariant of all states: `BotRuns.StepExactly`.
- An entry left under a former gender can form a missed pair (redis_client.py:223-229):
  `Counterexamples.StaleGender`, `MatchQueue.StaleEntryBreaksNoMissedMatch`.
- A room search from within a room is charged and waits in vain
  (handlers/chatroom/matching.py:84-126): `Counterexamples.SearchFromARoom`,
  `NoMissedRoomRuns.SearchRoomExactly`.
- Reopening a room and banning a member run no trigger (handlers/chatroom/moderation.py:170-218,
  ban_enforcement.py:72-92): `Counterexamples.ReopenBesideASeeker`,
  `NoMissedRoomRuns.ReopenExactly`, `Counterexamples.BanFreesAPlace`, `NoMissedRoomRuns.BanExactly`.
- "Delete" leaves a label behind whose sticker failed (handlers/chatroom/relay.py:356-364):
  `RelaySteps.StrayLabelStays`, `RelaySteps.DeleteReachesAllExactly`,
  `RelayRuns.DeleteReachesAllExactlyInEveryRun`.
- "Requests per minute" can be doubled within a minute (gemini_limiter.py:17-18):
  `TokenBuckets.MinuteBoundIsReached`, `TokenBuckets.MinuteLimitExactly`.
- Attempts at one clock reading count once, so any number of them pass (spam_guard.py:57-65):
  `SlidingWindows.EqualTimesAllPass`, `SlidingWindows.CountIsExactly`.
- A banned owner stays a member of the closed room while the mirror entry goes
  (db/queries.py:676-685): `LostCoins.BannedOwnerKeepsRoom`, `MemberOutcomes.BannedOutcome`.
- A request cancelled when it is accepted is not paid back (handlers/public_profile.py:362-381):
  `LostCoins.AcceptedTooLate`, `RequestOutcomes.AcceptOutcome`.
- A seeker thrown out as stale, or found to be in a room already, is not paid back
  (handlers/chatroom/matching.py:227-254). The source accepts the first for the rare case of a
  restart; the second needs no restart: `LostCoins.StaleSeekerIsDropped`,
  `LostCoins.OwnerIsDropped`, `SearchFates.DropsExactly`.
- The 1:1 script and the queue of seekers have no check like that of the create and join
  transactions, so a guard passed too early is not made good
  (handlers/chat/matching.py:191-273, handlers/chatroom/matching.py:98-132):
  `LateRuns.HealedByTheTrigger`, `Interleavings.LateChatExactly`, `Interleavings.LateSearchExactly`.

## Model

| member | source | states |
|---|---|---|
| SortedSets.First | redis_client.py:740-745 | The head of a non-empty sorted set is its one member that precedes all others. |
| SortedSets.Range | redis_client.py:209 | Listing a sorted set gives each member once, by score and then by the bytes of the id. |
| MatchOrder.SearchFindsEarliest | redis_client.py:200-221 | The search finds somebody exactly when somebody searched suits, and then the earliest in bucket, score and id order. |
| MatchOrder.MatchOrEnqueueEffect | redis_client.py:208-229 | A match leaves both buckets and touches nobody else; otherwise only the caller changes and waits under its gender and wish. |
| MatchQueue.FirstMatch | redis_client.py:210-213 | The first suitable candidate of a list, or none exactly when none suits. |
| MatchQueue.CandidateMembership | redis_client.py:200-209 | A caller looks at exactly the members of the buckets its wish names. |
| MatchQueue.MatchOrEnqueueKeepsNoMissedMatch | redis_client.py:189-230 | No two waiting users accept each other after the script, unless the caller still waits under its other gender. |
| MatchQueue.RemovalKeepsNoMissedMatch | redis_client.py:133-140 | Removing entries with their wishes never creates a missed match. |
| MatchQueue.StaleEntryBreaksNoMissedMatch | redis_client.py:223-229 | A caller that finds nobody leaves a missed match exactly when it still waits under its former gender and somebody searched wishes for that gender. |
| MatchQueue.AtMostOneWithoutWish | redis_client.py:189-230 | Without missed matches at most one waiting user has no wish. |
| MatchQueue.NoMissedMatchInEveryRun | redis_client.py:133-278 | No missed match in any run of searches by users not waiting under another gender, departures and stale purges. |
| WaitingQueueKeys.WaitingQueue.FindAmong | redis_client.py:210-219 | The inner loop returns the first suitable member of one bucket. |
| WaitingQueueKeys.WaitingQueue.FindMatch | redis_client.py:208-221 | The nested loops return the first suitable candidate. |
| WaitingQueueKeys.WaitingQueue.MatchOrEnqueue | redis_client.py:189-265 | The keys and the answer are those of the specified script. |
| WaitingQueueKeys.WaitingQueue.Dequeue | redis_client.py:133-140 | Both buckets and the wish lose the user; the answer tells whether it was waiting. |
| WaitingQueueKeys.WaitingQueue.PurgeStale | redis_client.py:268-278 | Entries up to the cutoff go, wishes stay. |
| RoomInvariant.PostKeeps | db/queries.py:261-282 | A booking that does not overdraw keeps balances equal to the ledger and all rooms as they are. |
| RoomInvariant.DeductKeeps | db/queries.py:261-270 | Charging succeeds exactly for a user whose ledger covers it, and keeps the database invariant. |
| RoomInvariant.RefundKeeps | db/queries.py:273-282 | A refund keeps the database invariant and adds one ledger entry of its kind. |
| RoomInvariant.ReferralKeeps | db/queries.py:304-333 | A referral bonus keeps the invariant, so at most one entry per inviter and invitee. |
| RoomInvariant.ReferralIsIdempotent | db/queries.py:319-326 | Granting the same bonus again changes nothing. |
| RoomInvariant.AddUserKeeps | db/queries.py:55-93 | Adding a user keeps the database invariant, so a new one starts with ten coins, and moves nobody's room. |
| RoomInvariant.OneLiveRoomPerOwner | db/queries.py:374-391 | A user owns at most one room that is not deleted. |
| RoomTransactions.CreateKeeps | db/queries.py:340-395 | When creating succeeds, what it adds, that it costs one booking, and that the invariant stays. |
| RoomTransactions.JoinKeeps | db/queries.py:398-455 | Joining succeeds exactly for a free user and an open room with a place; it adds one member; the invariant stays. |
| RoomTransactions.DepartKeeps | db/queries.py:495-518 | A departure leaves the room deleted and empty with its owner freed, or unchanged with two members at least. |
| RoomTransactions.LeaveKeeps | db/queries.py:458-526 | Leaving fails exactly for users without a room and for owners, and otherwise is a departure. |
| RoomTransactions.KickKeeps | db/queries.py:574-640 | Kicking succeeds exactly for an owner and another member of the same room, and is a departure of the target. |
| RoomTransactions.DeleteKeeps | db/queries.py:529-571 | Deleting succeeds exactly for the owner, empties the room for good and frees its members. |
| RoomTransactions.BanKeeps | db/queries.py:643-713 | A ban never deletes a room; it closes an owner's room with all its members, or removes the member and closes a room left to its owner. |
| RoomTransactions.SetOpenKeeps | db/queries.py:716-745 | Opening and closing succeed exactly for the owner and change nothing but the status. |
| PostgresTables.Postgres.GetOrCreateUser | db/queries.py:55-93 | The tables after it are those of the specification. |
| PostgresTables.Postgres.DeductCoins | db/queries.py:261-270 | The tables and the balance returned are those of the specification. |
| PostgresTables.Postgres.RefundCoins | db/queries.py:273-282 | The tables after it are those of the specification. |
| PostgresTables.Postgres.BonusPaid | db/queries.py:319-325 | The search over the ledger finds an earlier bonus exactly when the ledger counts one. |
| PostgresTables.Postgres.GrantReferralBonus | db/queries.py:304-333 | The tables after it are those of the specification. |
| PostgresTables.Postgres.FindOpenRoomForJoin | db/queries.py:808-837 | An oldest open room with a place and an agreeing preference, or none exactly when there is none. |
| PostgresTables.Postgres.ListOpenRoomIdsWithSpareCapacity | db/queries.py:840-857 | All open rooms with a place and no others. |
| PostgresTables.Postgres.CreateChatRoom | db/queries.py:365-395 | The tables and the result are those of the specified transaction. |
| PostgresTables.Postgres.JoinChatRoom | db/queries.py:419-455 | The tables and the result are those of the specified transaction. |
| PostgresTables.Postgres.FreeMembers | db/queries.py:514-517 | The loop frees exactly the listed users. |
| PostgresTables.Postgres.RemoveRow | db/queries.py:495-518 | Row, counting, and automatic deletion amount to the specified departure. |
| PostgresTables.Postgres.LeaveChatRoom | db/queries.py:472-526 | The tables and the result are those of the specified transaction. |
| PostgresTables.Postgres.DeleteChatRoom | db/queries.py:542-571 | The tables and the result are those of the specified transaction. |
| PostgresTables.Postgres.KickRoomMember | db/queries.py:584-640 | The tables and the result are those of the specified transaction. |
| PostgresTables.Postgres.RemoveBannedUserFromRoom | db/queries.py:663-713 | The tables and the outcome are those of the specified transaction. |
| PostgresTables.Postgres.SetRoomOpenStatus | db/queries.py:723-745 | The tables and the result are those of the specified transaction. |
| RedisKeys.ChatKeys.SetPartner | redis_client.py:305-311 | Both partner keys point at each other. |
| RedisKeys.ChatKeys.ClearPartner | redis_client.py:324-335 | The keys of both partners, their payer flags and their counter go; the former partner is returned. |
| RedisKeys.ChatKeys.CountMessage | redis_client.py:166-171 | The counter of the unordered pair goes up by one. |
| RedisKeys.SeekerKeys.Enqueue | redis_client.py:704-708 | The seeker enters its bucket with its job. |
| RedisKeys.SeekerKeys.Dequeue | redis_client.py:711-714 | The seeker leaves the named bucket only. |
| RedisKeys.SeekerKeys.PeekOldest | redis_client.py:734-747 | The loop over bucket heads finds the specified oldest seeker. |
| RedisKeys.SeekerKeys.PurgeStale | redis_client.py:750-762 | Entries up to the cutoff leave all three buckets, their jobs stay. |
| RedisKeys.MirrorKeys.ClearActiveRoom | redis_client.py:789-795 | The mirror entry and the suppression of one user go. |
| RedisKeys.MirrorKeys.ClearEach | handlers/chatroom/moderation.py:81-82 | The loop clears exactly the listed users. |
| RedisKeys.MirrorKeys.SwitchEach | handlers/chatroom/moderation.py:185-206 | The loop switches the keyboards of exactly the listed users. |
| RedisKeys.RequestKeys.CountActive | redis_client.py:656-660 | The number of open requests of a requester. |
| RedisKeys.RequestKeys.Create | redis_client.py:626-637 | The request enters all three indexes. |
| RedisKeys.RequestKeys.Clear | redis_client.py:663-668 | The request leaves all three indexes. |
| RedisKeys.RequestKeys.PopExpired | redis_client.py:671-690 | The loop closes the expired requests and returns the requesters of those still open, in order. |
| BotStores.Stores.HasRoomConflict | handlers/chat/matching.py:48-63 | True exactly for users with an active room or waiting for one. |
| BotStores.Stores.RedisConflictCheck | handlers/chatroom/creation.py:285-295 | The conflict of a paired or waiting user, in that order. |
| BotStores.Stores.CheckCanStartRoomFlow | handlers/chatroom/creation.py:262-282 | True exactly for users paired, waiting for a chat or waiting for a room. |
| BotStores.Stores.IsWaiting | redis_client.py:143-148 | True exactly for users in either bucket. |
| BotStores.Stores.IsWaitingRoomJoin | redis_client.py:717-723 | The filter under which a user waits. |
| ChatBot.TryMatch | handlers/chat/matching.py:66-108 | The stores after it are those of the specified handler, whose meaning is told by `ChatOutcomes.TryMatchOutcome`. |
| ChatBot.PaySearch | handlers/chat/matching.py:261-270 | The charge and the payer flag, or nothing, are those of the specification, whose meaning is told by `ChatOutcomes.PaySearchOutcome`. |
| ChatBot.PayAndMatch | handlers/chat/matching.py:261-273 | The stores after it are those of the specified handler, whose meaning is told by `ChatOutcomes.PayAndMatchOutcome`. |
| ChatBot.StartChat | handlers/chat/matching.py:191-227 | The stores after it are those of the specified handler, whose meaning is told by `ChatOutcomes.StartOutcome`. |
| ChatBot.Claim | handlers/search.py:319-326 | The candidate leaves the queue and is claimed exactly if it waited unpaired. |
| ChatBot.RunSearch | handlers/search.py:250-354 | The stores after it are those of the specified handler, whose meaning is told by `ChatOutcomes.FilteredSearchOutcome`. |
| ChatBot.EndChat | handlers/chat/session.py:81-109 | Reading flags, clearing keys and refunding amount to the specified end of a chat, whose meaning is told by `ChatOutcomes.EndChatOutcome`. |
| ChatBot.LeaveQueue | handlers/chat/session.py:68-73 | The stores after it are those of the specified handler, whose meaning is told by `ChatOutcomes.LeaveQueueOutcome`. |
| ChatBot.StopChat | handlers/chat/session.py:65-109 | The stores after it are those of the specified handler, whose meaning is told by `ChatOutcomes.StopOutcome`. |
| ChatBot.NextChat | handlers/chat/session.py:131-190 | The stores after it are those of the specified handler, whose meaning is told by `ChatOutcomes.NextOutcome`. |
| ChatBot.QueueTimeout | handlers/chat/matching.py:145-159 | The stores after it are those of the specified job, whose meaning is told by `ChatOutcomes.QueueTimeoutOutcome`. |
| ChatBot.PurgeQueue | main.py:589-595 | The stores after it are those of the specified job, whose meaning is told by `ChatOutcomes.PurgeQueueOutcome`. |
| ChatBot.CountMessage | handlers/chat/relay.py:131 | The stores after it are those of the specified step, whose meaning is told by `ChatOutcomes.MessageOutcome`. |
| ChatBot.SendRequest | handlers/public_profile.py:200-259 | The stores after it are those of the specified handler, whose meaning is told by `RequestOutcomes.SendOutcome`. |
| ChatBot.AcceptRequest | handlers/public_profile.py:344-386 | The stores after it are those of the specified handler, whose meaning is told by `RequestOutcomes.AcceptOutcome`. |
| ChatBot.RejectRequest | handlers/public_profile.py:416-429 | The stores after it are those of the specified handler, whose meaning is told by `RequestOutcomes.RejectOutcome`. |
| ChatBot.ExpireRequests | main.py:617-625 | Popping and the refund loop amount to the specified job, whose meaning is told by `RequestOutcomes.ExpiryOutcome`. |
| RoomBot.TryFillRoomFromQueue | handlers/chatroom/matching.py:199-244 | The loop ends and leaves the stores as the specified fill does, whose meaning is told by `FillEffects.FillOutcome`. |
| RoomBot.OfferPlace | handlers/chatroom/matching.py:217-244 | One turn settles the candidate, or stops with nothing changed exactly when the room is at fault. |
| RoomBot.SweepRoomJoinQueue | handlers/chatroom/matching.py:247-256 | The stores after it are those of the specified sweep over a list with every room that has a place, whose meaning is told by `RoomOutcomes.SweepOutcome`. |
| RoomBot.TryJoinRoom | handlers/chatroom/matching.py:98-132 | The stores after it are those of the specified handler for the room its query found. |
| RoomBot.SearchRoom | handlers/chatroom/matching.py:77-95 | The stores after it are those of the specified handler, whose meaning is told by `RoomOutcomes.SearchOutcome`. |
| RoomBot.CancelSearch | handlers/chatroom/matching.py:143-162 | The stores after it are those of the specified handler, whose meaning is told by `RoomOutcomes.CancelOutcome`. |
| RoomBot.SearchTimeout | handlers/chatroom/matching.py:177-187 | The stores after it are those of the specified job, whose meaning is told by `RoomOutcomes.TimeoutOutcome`. |
| RoomBot.Restart | handlers/chatroom/matching.py:250-252 | The pending jobs are gone and nothing else. |
| RoomBot.CreateFlow | handlers/chatroom/creation.py:196-259 | The stores after it are those of the specified handler, whose meaning is told by `RoomOutcomes.CreateOutcome`. |
| RoomBot.AfterDeparture | handlers/chatroom/relay.py:304-331 | Mirror entries and the trigger, as specified, whose meaning is told by `MemberOutcomes.DepartureOutcome`. |
| RoomBot.LeaveFlow | handlers/chatroom/membership.py:39-90 | The stores after it are those of the specified handler, whose meaning is told by `MemberOutcomes.LeaveOutcome`. |
| RoomBot.KickFlow | handlers/chatroom/relay.py:295-331 | The stores after it are those of the specified handler, whose meaning is told by `MemberOutcomes.KickOutcome`. |
| RoomBot.DeleteFlow | handlers/chatroom/moderation.py:61-82 | The stores after it are those of the specified handler, whose meaning is told by `MemberOutcomes.DeleteOutcome`. |
| RoomBot.SetOpenFlow | handlers/chatroom/moderation.py:170-206 | The stores after it are those of the specified handler, whose meaning is told by `MemberOutcomes.SwitchOutcome`. |
| RoomBot.EnforceBan | ban_enforcement.py:38-77 | The stores after it are those of the specified handler, whose meaning is told by `MemberOutcomes.BannedOutcome`. |
| RoomBot.HealMirror | handlers/chatroom/relay.py:78-89 | An unconfirmed mirror entry is cleared; otherwise nothing changes and the user is a member. |
| RoomBot.ExitRoomUi | handlers/chatroom/membership.py:95-99 | The keyboard of a user shown the exit button is switched off. |
| RoomBot.ShowRoom | handlers/chatroom/creation.py:69-83 | The mirror of a gone room is cleared, otherwise the keyboard is switched on. |
| RoomBot.SyncMirror | main.py:606-614 | The loop restores exactly the missing mirror entries. |
| ChatSteps.StartChatKeeps | handlers/chat/matching.py:171-236 | Starting a chat keeps the invariant of all states. |
| ChatEndings.StopChatKeeps | handlers/chat/session.py:65-128 | So does stopping, after which the user is off the 1:1 side. |
| ChatEndings.QueueTimeoutKeeps | handlers/chat/matching.py:145-168 | So does the timeout of a search. |
| ChatEndings.PurgeQueueKeeps | main.py:589-595 | So does the purge of stale entries, which leaves payer flags standing. |
| ChatEndings.MessageKeeps | handlers/chat/relay.py:131 | So does a message. |
| MissingGuards.NextChatExactly | handlers/chat/session.py:131-190 | /next keeps the invariant, and already the two sides apart, exactly unless its user is on the room side, has a gender and a preference, and coins and refund cover the fee. |
| MissingGuards.RunSearchExactly | handlers/search.py:250-354 | The filtered search keeps the invariant exactly unless a caller who waits and can pay falls back and then is matched or misses a match by its old entry. |
| MissingGuards.WaitingCallerExactly | handlers/chat/matching.py:66-108 | The plain search of a waiting caller keeps the invariant exactly if nobody suits it and its old entry misses nobody. |
| RoomSteps.FillLoopKeeps | handlers/chatroom/matching.py:212-244 | The fill loop keeps the invariant of all states. |
| RoomSteps.SettleKeeps | handlers/chatroom/matching.py:217-244 | While handlers are whole no queued seeker is ever on the 1:1 side, so only its own room or the room's fault can refuse it. |
| RoomFlows.SearchRoomKeeps | handlers/chatroom/matching.py:77-140 | Searching for a room keeps the invariant. |
| RoomFlows.CancelSearchKeeps | handlers/chatroom/matching.py:143-174 | So does cancelling, after which the user no longer waits. |
| RoomFlows.TimeoutSeekers | handlers/chatroom/matching.py:177-187 | A job that pays back a user now waiting in another bucket mints nothing, for another paid search is pending. |
| RoomFlows.SearchTimeoutKeeps | handlers/chatroom/matching.py:177-196 | The timeout job keeps the invariant. |
| RoomFlows.SweepKeeps | handlers/chatroom/matching.py:247-256 | So does the sweep. |
| RoomFlows.CreateFlowKeeps | handlers/chatroom/creation.py:196-259 | So does creating a room. |
| RoomFlows.LeaveFlowKeeps | handlers/chatroom/membership.py:39-92 | So does leaving. |
| RoomFlows.KickFlowKeeps | handlers/chatroom/relay.py:274-331 | So does kicking. |
| RoomFlows.DeleteFlowKeeps | handlers/chatroom/moderation.py:49-96 | So does deleting. |
| RoomFlows.SetOpenFlowKeeps | handlers/chatroom/moderation.py:170-218 | So does opening and closing. |
| RoomFlows.EnforceBanKeeps | ban_enforcement.py:38-92 | So does a ban. |
| RoomFlows.HealMirrorKeeps | handlers/chatroom/relay.py:78-89 | So does the check of the mirror. |
| RoomFlows.SyncMirrorKeeps | main.py:606-614 | So does the sync job. |
| RoomFlows.RoomUiKeeps | handlers/chatroom/membership.py:95-103 | So do leaving and entering the room keyboard. |
| RoomFlows.MirrorHeals | handlers/chatroom/relay.py:78-89 | From any mirror, one message of a user and one sync job make the mirror name its active room. |
| RequestSteps.SendRequestKeeps | handlers/public_profile.py:200-259 | Sending a request keeps the invariant. |
| RequestSteps.AcceptRequestKeeps | handlers/public_profile.py:344-413 | So does accepting or cancelling one. |
| RequestSteps.RejectRequestKeeps | handlers/public_profile.py:416-440 | So does rejecting. |
| RequestSteps.ExpireRequestsKeeps | main.py:617-636 | So does the expiry job. |
| RequestSteps.ExpiryIsExact | redis_client.py:671-690 | After the job exactly the requests younger than the cutoff are still open. |
| RequestHandlers.ExpiryOneByOne | main.py:621-625 | Closing all and then paying all amounts to closing and paying one after the other. |
| BotRuns.StepExactly | main.py:663-712 | Of everything that can happen in a good state, exactly /next and the filtered search under the conditions of `MissingGuards` lead to a bad one. |
| BotRuns.EveryReachableStateIsGood | main.py:663-712 | Every state that a run without those two harms reaches from the empty stores satisfies the invariant. |
| Interleavings.GuardThenRest | handlers/chatroom/matching.py:84-95 | Undisturbed, guard and rest make up the handlers. |
| Interleavings.LateCreateKeeps | handlers/chatroom/creation.py:217-259 | Whatever its user did since the guard, creating a room keeps the invariant: the check inside the transaction is enough. |
| Interleavings.LateSearchExactly | handlers/chatroom/matching.py:90-132 | A search committing late keeps the invariant exactly unless a caller who can pay enters the queue while on the 1:1 side or waiting under another filter. |
| Interleavings.ConflictGivesBack | handlers/chatroom/matching.py:109-122 | A caller found on the 1:1 side by the join transaction gets its fee back and neither room nor wait. |
| Interleavings.LateChatExactly | handlers/chat/matching.py:261-273 | A chat start committing late keeps the invariant exactly unless the caller gets in while on the room side, paired, or waiting with a match made or missed. |
| Interleavings.MoveExactly | handlers/chatroom/creation.py:285-295 | Of all whole events and late commits exactly the stated ones harm the invariant. |
| Interleavings.EveryInterleavingIsGood | handlers/chatroom/creation.py:285-295 | Every interleaving of events and late commits without them keeps it. |
| Interleavings.TurnHeals | handlers/chatroom/matching.py:217-242 | In whatever state, the turn of a seeker on the 1:1 side takes it off the queue, pays it back and lets it into no room. |
| LateRuns.LateSearchIsPaidBack | handlers/chatroom/matching.py:109-122 | A run in which the join transaction finds the conflict and the fee comes back. |
| LateRuns.HealedByTheTrigger | handlers/chatroom/matching.py:232-242 | A run in which a late 1:1 start puts a seeker on both sides and the next room mends it. |
| Guarantees.OneSideOnly | handlers/chatroom/creation.py:262-295 | In every run nobody is on the 1:1 side and on the room side at once, pairing is mutual, and no paired user waits. |
| Guarantees.StrangersStartAtZero | redis_client.py:166-177 | In every run users not paired with each other have exchanged no counted message. |
| Guarantees.AtMostOneTakesAnybody | redis_client.py:189-278 | In every run at most one waiting user has no wish. |
| Guarantees.BooksBalance | db/queries.py:82-333 | In every run coins are ten plus the sum of the ledger and never negative, and a referral pays once. |
| Guarantees.NoCoinIsMinted | handlers/chat/session.py:68-158 | In every run refunds and payer flags never exceed gender searches, and request fees and refunds match how requests ended. |
| Guarantees.RoomsAreSound | db/queries.py:340-745 | In every run active rooms are member rows, capacities hold, deleted rooms are empty, others hold their owner, one each. |
| Guarantees.MirrorTellsNoLies | redis_client.py:765-815 | In every run the mirror names only rooms their users are in, and suppression implies an active room. |
| Guarantees.RequestIndexesAgree | redis_client.py:626-690 | In every run the three indexes of requests agree. |
| ChatOutcomes.TryMatchOutcome | handlers/chat/matching.py:66-108 | A search pairs the caller with the earliest suitable user whenever there is one, else the caller waits with its wish; no coin, flag, count or other place changes. |
| ChatOutcomes.PaySearchOutcome | handlers/chat/matching.py:261-270 | A gender search is paid exactly by those who can, with one booking of two coins and the payer flag. |
| ChatOutcomes.PayAndMatchOutcome | handlers/chat/matching.py:261-273 | With a wish the caller is charged, marked and matched or queued with that very wish; without one nothing is charged; without the coins nothing happens. |
| ChatOutcomes.StartOutcome | handlers/chat/matching.py:191-227 | A start from either side does nothing; any other is charged and matched or queued as told. |
| ChatOutcomes.FilteredSearchOutcome | handlers/search.py:250-354 | Turned away in a room, in a chat or without the coins; else charged, and paired with the choice, or matched or queued with that very filter. |
| ChatOutcomes.EndChatOutcome | handlers/chat/session.py:80-109 | Both are free, unmarked and strangers again, payers of a chat of fewer than three messages are paid back with a booking each, nobody else is affected. |
| ChatOutcomes.LeaveQueueOutcome | handlers/chat/matching.py:154-159 | The user is out of the queue, unmarked, and has its fee back if it paid one; nobody else is affected. |
| ChatOutcomes.StopOutcome | handlers/chat/session.py:65-109 | Stopping leaves the queue with the fee, or ends the chat, or does nothing. |
| ChatOutcomes.QueueTimeoutOutcome | handlers/chat/matching.py:145-159 | The timeout leaves the queue with the fee for a user still waiting and does nothing for others. |
| ChatOutcomes.NextOutcome | handlers/chat/session.py:131-190 | /next ends the chat, leaves the queue without a refund, and then starts with the saved preference, charged and matched as a start is. |
| ChatOutcomes.MessageOutcome | handlers/chat/relay.py:131 | A message counts once for its pair and for no other. |
| ChatOutcomes.PurgeQueueOutcome | redis_client.py:268-278 | Exactly the entries up to the cutoff go; wishes, pairs, flags and coins stay. |
| RequestOutcomes.AcceptOutcome | handlers/public_profile.py:362-386 | Two free users are paired; otherwise the request goes without a refund; other requests, pairs and places stay. |
| RequestOutcomes.SendOutcome | handlers/public_profile.py:208-259 | Who may send a request, that it then costs two coins and is open, and that otherwise nothing happens. |
| RequestOutcomes.RejectOutcome | handlers/public_profile.py:416-429 | The fee comes back with one booking, and nothing happens when the button is pressed again. |
| RequestOutcomes.ExpiryOutcome | main.py:617-625 | Exactly the requests up to the cutoff close, coins plus the fees of open requests stay the same for every user, nothing else changes. |
| RequestOutcomes.JoinsOutcome | db/queries.py:55-93 | A new user starts with ten coins and no room; nobody else changes. |
| RequestOutcomes.ReferralOutcome | db/queries.py:304-333 | Five coins are booked for the inviter exactly if this pair has no bonus yet. |
| RoomOutcomes.CreateOutcome | handlers/chatroom/creation.py:196-259 | Who can create a room, what it costs, the room itself, whose mirror names it, that nobody it would take waits on, and that nobody else is affected but those let in. |
| RoomOutcomes.ClampOutcome | db/queries.py:365 | A capacity outside two to five becomes the nearest one inside, any other is kept. |
| RoomOutcomes.SearchOutcome | handlers/chatroom/matching.py:77-132 | Turned away on either side or without the coins; else three coins are booked and the caller is in the room found, mirror and all, or in the queue with one more job. |
| MemberOutcomes.LeaveOutcome | handlers/chatroom/membership.py:39-90 | An ordinary member departs, out of room and mirror or let in again exactly if its turn comes; the room lives on or its owner is freed too; every other mirror follows its user's room; an owner is refused; without a room only the mirror is cleared. |
| MemberOutcomes.KickOutcome | handlers/chatroom/relay.py:295-331 | The same departure for another member of the owner's room; anything else does nothing. |
| MemberOutcomes.DeleteOutcome | handlers/chatroom/moderation.py:61-82 | The owner frees exactly the members and their mirrors; others do nothing; no coin moves. |
| MemberOutcomes.SwitchOutcome | handlers/chatroom/moderation.py:170-206 | For the owner only the status changes, and exactly the other members' keyboards are switched; others do nothing. |
| RoomOutcomes.CancelOutcome | handlers/chatroom/matching.py:152-162 | Cancelling ends the wait and its jobs and books three coins back, or does nothing; nobody else is affected. |
| RoomOutcomes.TimeoutOutcome | handlers/chatroom/matching.py:177-187 | A job whose user waits under its filter ends the wait and pays back; one whose user waits elsewhere pays back only; else just the job goes. |
| RoomOutcomes.RestartOutcome | handlers/chatroom/matching.py:250-252 | All jobs go, all places stay. |
| RoomOutcomes.SweepOutcome | handlers/chatroom/matching.py:247-256 | First exactly the entries up to the cutoff go, then rooms fill as told, and with every room that has a place listed no missed room is left. |
| MemberOutcomes.BannedOutcome | ban_enforcement.py:38-77 | A ban ends the chat without refunds and cuts no other; a banned owner keeps the closed room, a member loses it; only the banned user's mirror is cleared. |
| MemberOutcomes.HealOutcome | handlers/chatroom/relay.py:80-89 | Exactly an unconfirmed entry is cleared, and no other. |
| MemberOutcomes.SyncOutcome | main.py:606-614 | Every missing entry becomes the room Postgres knows, and no other changes. |
| MemberOutcomes.ExitUiOutcome | handlers/chatroom/membership.py:95-103 | Exactly the keyboard of a user with an entry is switched off. |
| MemberOutcomes.ShowOutcome | handlers/chatroom/creation.py:66-83 | The entry of a gone room is cleared, otherwise the keyboard is on again. |
| FillEffects.FillOutcome | handlers/chatroom/matching.py:199-244 | The trigger changes a user's room and mirror together, and only those of free seekers of the line; whoever leaves the queue loses its jobs, all others keep place and jobs. |
| FillEffects.FillAllOutcome | handlers/chatroom/matching.py:255-256 | So does filling any list of rooms. |
| Meanings.EveryEventMeansWhatItSays | main.py:663-712 | Every event that can happen in a good state has the effect told for it on everybody. |
| Meanings.EveryRunMeansWhatItSays | main.py:663-712 | So has every event of every run from the empty stores. |
| FillOrder.FillLoopIsFifo | handlers/chatroom/matching.py:212-244 | Seekers only leave, and none of those who left came after one who stayed. |
| FillOrder.FillLoopAdmits | handlers/chatroom/matching.py:212-244 | Only the one room gains members, each a free seeker with its mirror set, and nobody leaves the queue without a room. |
| FillOrder.FillLoopSettles | handlers/chatroom/matching.py:212-225 | When the loop stops the room is full or nobody it would take waits. |
| FillOrder.BucketsAgree | redis_client.py:726-731 | A room takes from exactly the buckets of filters that agree with it. |
| FillExactly.PeekTie | redis_client.py:734-747 | Among heads of equal age the bucket listed first wins. |
| FillExactly.FillLoopTakesExactly | handlers/chatroom/matching.py:212-244 | A compatible seeker leaves the queue exactly if the free seekers ahead of it, by time, bucket and id, are fewer than the free places, or no more for one who has a room. |
| FillExactly.FillTakesExactly | handlers/chatroom/matching.py:199-244 | The trigger seen by any one seeker: who leaves the queue, and which room it is in afterwards. |
| NoMissedRooms.FillServesTheQueue | handlers/chatroom/matching.py:199-244 | The trigger: first come first served, up to the free places, until no compatible seeker is left. |
| NoMissedRooms.TriggerRestores | handlers/chatroom/matching.py:199-244 | A step that makes room in one room only, followed by the trigger, leaves no missed room. |
| NoMissedRoomRuns.SearchRoomExactly | handlers/chatroom/matching.py:77-140 | A search leaves a missed room exactly when a searcher already in a room can pay and some open room with a place suits. |
| NoMissedRoomRuns.ReopenExactly | handlers/chatroom/moderation.py:170-218 | Reopening leaves one exactly when the caller owns a room with a free place and somebody it would take waits. |
| NoMissedRoomRuns.BanExactly | db/queries.py:687-713 | A ban leaves one exactly when the user is an ordinary member of an open room of three or more that somebody waits for. |
| NoMissedRoomRuns.SweepRestores | handlers/chatroom/matching.py:247-256 | From any state that satisfies the invariant of all states the sweep leaves no missed room. |
| NoMissedRoomRuns.NoMissedRoomAfterSweep | handlers/chatroom/matching.py:98-256 | After a sweep no run without reopening, bans and searches from within a room produces one. |
| NoMissedRoomRuns.NoMissedRoomInQuietRuns | handlers/chatroom/matching.py:98-256 | Nor does such a run from the empty stores. |
| RoomEvolution.StepEvolves | db/queries.py:340-745 | Rooms keep what they were created with, and no event but three deletes one. |
| RoomEvolution.DeletedForever | db/queries.py:511-518 | A deleted room stays deleted and empty in every run. |
| SearchFates.StepBalances | handlers/chatroom/matching.py:77-256 | At every event each user's charge is matched by a refund, a room, waiting, or a drop, and drops happen exactly as told. |
| SearchFates.StaleExactly | redis_client.py:750-762 | A sweep throws out exactly the seekers with an entry no younger than its cutoff. |
| SearchFates.FillDropsExactly | handlers/chatroom/matching.py:227-242 | A trigger drops a seeker exactly if it is in a room already and its turn comes. |
| SearchFates.DropsExactly | handlers/chatroom/matching.py:199-256 | An event leaves a seeker with neither room nor refund exactly if a sweep finds it stale or a trigger reaches it while it is in a room, told from the state before. |
| SearchFates.EverySearchIsAccountedFor | handlers/chatroom/matching.py:77-256 | Over every run charges and late refunds equal refunds, rooms joined, drops and the wait going on; refunds plus the wait never exceed charges. |
| RoomRelay.DeleteReachesRecorded | handlers/chatroom/relay.py:231-260 | "Delete" is refused to others than author and owner, and reaches exactly the recorded copies from any of them. |
| RoomRelay.DeleteMissesStrays | handlers/chatroom/relay.py:254-260 | Among all copies of the message it misses exactly those never written down. |
| RoomRelay.StrayIsUnknown | handlers/chatroom/relay.py:239-241 | Replying to an unrecorded copy does nothing. |
| RoomRelay.EditReachesOthers | handlers/chatroom/relay.py:134-160 | An edit is accepted for one's own message only and reaches exactly the others' copies. |
| RoomRelay.QuoteIsACopy | handlers/chatroom/relay.py:195-207 | A reply quotes a copy of the same message in each chat that has one. |
| RoomRelay.RecordKeeps | redis_client.py:839-878 | Recording fresh copies keeps the two indexes inverse and the history complete. |
| RelaySteps.SendKeeps | handlers/chatroom/relay.py:209-219 | A send, failed, halved or whole, keeps the indexes and records exactly what was delivered. |
| RelaySteps.SayKeeps | handlers/chatroom/relay.py:187-225 | After the fan-out each member has exactly its delivered copies and the author its own, and no other message changed. |
| RelaySteps.ReplyQuotesTheLastCopy | handlers/chatroom/relay.py:201-207 | A reply quotes for each recipient the last id delivered to it, and nothing for one that got nothing. |
| RelaySteps.SayStrays | handlers/chatroom/relay.py:209-219 | Relaying a new message leaves a copy unrecorded exactly if some send got only its label through. |
| RelaySteps.DeleteReachesAllExactly | handlers/chatroom/relay.py:254-260 | After a message is relayed "delete" by author or owner reaches every copy exactly if no send of it got only its label through. |
| RelaySteps.PurgeReachesAll | handlers/chatroom/moderation.py:149-158 | A first purge tries exactly the recorded copies of the room, a second one none. |
| RelaySteps.PurgeKeeps | handlers/chatroom/moderation.py:149-158 | A purge empties the histories of its room and no other. |
| RelayRuns.NextKeeps | handlers/chatroom/relay.py:78-115 | Every step of bot and relay keeps the indexes, and offers cover everybody with a history. |
| SilentRooms.ClosedRoomRelaysNothing | handlers/chatroom/relay.py:91-102 | A message into a closed room changes nothing. |
| SilentRooms.UnconfirmedRelaysNothing | handlers/chatroom/relay.py:78-89 | Without a confirmed entry nothing is relayed, and at most the wrong entry goes. |
| SilentRooms.OpenRoomRelays | handlers/chatroom/relay.py:187-225 | A message of a member of an open room is recorded for that room, the author's copy and every delivered one. |
| SilentRooms.OpensExactly | db/queries.py:716-745 | A room that is not open is opened by its owner reopening it and by nothing else. |
| SilentRooms.ShutRoomIsSilent | handlers/chatroom/relay.py:91-102 | While a room is not open no copy is sent into it, whatever happens. |
| SilentRooms.SilentFromClosingToReopening | handlers/chatroom/relay.py:91-102 | From closing to the next reopening not one copy is added to a room. |
| SilentRooms.EventsOffer | handlers/chatroom/moderation.py:99-118 | Exactly the deletion of a room with a history makes an offer, to its members and everybody with one. |
| SilentRooms.OffersAndPurges | handlers/chatroom/moderation.py:139-158 | A lapsed offer purges nothing; a purge empties the histories of its room and leaves the indexes. |
| RelayRuns.DeleteInEveryRun | handlers/chatroom/relay.py:231-260 | In every run "delete" by author or owner on any recorded copy reaches exactly the recorded copies. |
| RelayRuns.DeleteReachesAllExactlyInEveryRun | handlers/chatroom/relay.py:231-260 | However long afterwards, and whatever was said, deleted or purged meanwhile, it still does, and exactly then. |
| RelayRuns.EditInEveryRun | handlers/chatroom/relay.py:118-160 | In every run an edit reaches exactly the recorded copies of the others. |
| RelayRuns.QuoteInEveryRun | handlers/chatroom/relay.py:195-207 | In every run a reply quotes a copy of the message replied to. |
| RelayRuns.DeletionOffers | handlers/chatroom/moderation.py:99-118 | The moment a room with recorded copies is deleted its purge is offered. |
| RelayRuns.DeletedRoomsAreSilent | handlers/chatroom/relay.py:78-89 | Once a room is deleted nothing is recorded for it again. |
| RelayRuns.PurgeCoverage | handlers/chatroom/moderation.py:99-158 | Whatever happens between, a purge within the offer tries exactly what was recorded before the deletion, and the histories stay empty. |
| RelayStore.RelayKeys.RecordCopies | handlers/chatroom/relay.py:216-219 | The writes of one recipient amount to the specified record. |
| RelayStore.RelayKeys.SendToAll | handlers/chatroom/relay.py:193-219 | The loop over recipients amounts to the specified fan-out and quotes what was known before it. |
| RelayStore.RelayKeys.RelayNewMessage | handlers/chatroom/relay.py:187-225 | The fan-out loop amounts to the specified step, reports whether anybody got the message, and quotes as specified. |
| RelayStore.RelayKeys.HandleDeleteCommand | handlers/chatroom/relay.py:231-260 | The nested loops try each target exactly once. |
| RelayStore.RelayKeys.RelayRoomEdit | handlers/chatroom/relay.py:118-160 | The nested loops try each target exactly once. |
| RelayStore.RelayKeys.OfferRoomHistoryPurge | handlers/chatroom/moderation.py:99-118 | The offer lists the members and everybody with a history, if anybody has one. |
| RelayStore.RelayKeys.PurgeHistory | handlers/chatroom/moderation.py:139-158 | The nested loops pop every listed history and try each of its messages exactly once. |
| TokenBuckets.TriesKeep | gemini_limiter.py:36-48 | Tokens stay between zero and the capacity. |
| TokenBuckets.SpendingBound | gemini_limiter.py:39-46 | Until any moment at most the tokens at hand and those flowing in are spent. |
| TokenBuckets.RateBound | gemini_limiter.py:28-49 | In every interval at most the capacity plus rate times length is granted. |
| TokenBuckets.MinuteBound | gemini_limiter.py:52 | In no minute more than twice the configured number. |
| TokenBuckets.MinuteBoundIsReached | gemini_limiter.py:52 | That bound is reached. |
| TokenBuckets.MinuteLimitExactly | gemini_limiter.py:17-25 | The coming minute respects the configured number in every run exactly when no whole token is left. |
| TokenBuckets.WaitIsExact | gemini_limiter.py:45-49 | Undisturbed, a refused task is granted exactly if it sleeps the computed time at least. |
| TokenBucketObject.TokenBucket.Acquire | gemini_limiter.py:36-49 | The loop of one task among others stops at its first grant; a task alone while it sleeps needs two tries at most. |
| SlidingWindows.WindowIsExact | spam_guard.py:54-65 | After a check the set holds exactly the attempts of the last window. |
| SlidingWindows.WindowBound | spam_guard.py:54-65 | Every half-open window whose attempts have distinct readings holds at most the limit of attempts let through. |
| SlidingWindows.ReadingsBound | spam_guard.py:54-65 | Whatever readings attempts share, they are let through at no more readings than the limit. |
| SlidingWindows.EqualTimesAllPass | spam_guard.py:57-65 | Any number of attempts at one reading are let through. |
| SlidingWindows.CountIsExactly | spam_guard.py:57-65 | The guard counts every attempt exactly when no two of the window share a reading. |
| SlidingWindows.EqualTimesCountOnce | spam_guard.py:61 | Two attempts at one reading count once. |
| SlidingWindows.ExpiryIsHarmless | spam_guard.py:63 | The expiry of the key changes no later check. |
| SlidingWindows.WindowsRefine | spam_guard.py:77-111 | The three sets are three independent windows fed with the checks that reach them. |
| SlidingWindows.AllowedBound | spam_guard.py:77-111 | At most 12 messages are allowed in five seconds, 30 in thirty and 8 commands in ten, counting checks. |
| SlidingWindows.DroppedExactly | spam_guard.py:81-101 | A check is dropped exactly while a block of sixty seconds is live. |
| SlidingWindows.AllowedExactly | spam_guard.py:87-111 | Otherwise it is allowed exactly when the attempts of each of its windows are within the limit. |
| SpamGuardKeys.SpamGuard.CheckMessage | spam_guard.py:77-95 | Both windows slide even if the first overflows; keys and verdict are those of the specified check. |
| SpamGuardKeys.SpamGuard.CheckCommand | spam_guard.py:98-111 | Keys and verdict are those of the specified check. |
| Counterexamples.NextFromARoom | handlers/chat/session.py:131-190 | A run in which /next puts a room's owner into the 1:1 queue. |
| Counterexamples.SearchFromTheQueue | handlers/search.py:250-354 | A run in which a filtered search pairs a user who still waits. |
| Counterexamples.SearchFromARoom | handlers/chatroom/matching.py:102-126 | A run in which a search from within a room waits beside a free place. |
| Counterexamples.ReopenBesideASeeker | handlers/chatroom/moderation.py:185-198 | A run in which a reopened room has a place that a waiting seeker is not offered. |
| Counterexamples.BanFreesAPlace | db/queries.py:687-713 | A run in which a ban frees such a place. |
| Counterexamples.StaleGender | redis_client.py:223-229 | A run in which a changed gender leaves a missed match. |
| LostCoins.OwnerIsDropped | handlers/chatroom/matching.py:227-244 | A run in which an owner pays for a search, waits, and is dropped unpaid by a sweep that does not find it stale. |
| LostCoins.StaleSeekerIsDropped | handlers/chatroom/matching.py:247-254 | A run in which a sweep throws a seeker out as stale, unpaid. |
| LostCoins.BannedOwnerKeepsRoom | db/queries.py:676-685 | A run in which a banned owner stays owner and member of the closed room. |
| LostCoins.AcceptedTooLate | handlers/public_profile.py:362-381 | A run in which an accepted request is cancelled and its two coins are gone. |
| RelaySteps.StrayLabelStays | handlers/chatroom/relay.py:356-364 | A label whose sticker failed outlives the deletion of its message. |

## Left out

- BotRuns.StepExactly: takes for granted that the profile filters never offer the caller itself, that request ids are new and that a request reaches only its target; choosing and claiming a candidate are one step here.
- Interleavings.LateSearchExactly: a search is suspended between its guard and its payment only; payment, room query and join are one step.
- TokenBucketObject.TokenBucket.Acquire: takes the clock readings, its own and those of other tasks, as an argument. A limit of zero requests, which divides by zero in the source, is outside the model.
- RelayStore.RelayKeys.RelayNewMessage: takes how each send ended as an argument, and does not model message kinds the relay does not support, which abort the fan-out with an error.
- Sending messages, keyboards, texts and callback data: user interface.
- Moderation by language models and the verdicts on reports: a ban is an event that may happen at any time.
- Profile filters and distances of the filtered search: an arbitrary choice among the waiting users.
- Isolation levels, row locks and session caching of Postgres: transactions are serial.
- Expiry of payer flags, message counters and message maps after half a day to two days.
- The records of chat sessions and chat statistics: written and never read by the handlers modelled.
- Two-party history deletion, reactions, blocks, silent mode, anonymous notes, settings and pagination: easy members.
- The older non-atomic enqueue (redis_client.py:110-130), which no handler calls.
