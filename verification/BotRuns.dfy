/** Runs of the whole bot: any interleaving of handlers and jobs, each one atomic. */
module BotRuns {
  import opened Basics
  import opened Ledger
  import opened Database
  import opened RoomInvariant
  import opened RoomTransactions
  import opened MatchQueue
  import opened World
  import opened ChatHandlers
  import opened RoomHandlers
  import opened RequestHandlers
  import opened WorldInvariant
  import opened ChatSteps
  import opened ChatEndings
  import opened MissingGuards
  import opened RoomSteps
  import opened RoomFlows
  import opened RequestSteps

  datatype Event =
    | UserJoins(u: UserId)
    | ReportRewarded(u: UserId, amount: nat)
    | ReferralCompleted(inviter: UserId, u: UserId)
    | DirectMessageSent(u: UserId, amount: nat)
    | ChatStarts(u: UserId, own: Option<Gender>, want: Option<Gender>, now: real)
    | FilteredSearch(u: UserId, own: Option<Gender>, want: Option<Gender>, choice: Option<UserId>, now: real)
    | ChatStops(u: UserId)
    | ChatNexts(u: UserId, own: Option<Gender>, saved: Option<Option<Gender>>, now: real)
    | QueueTimesOut(u: UserId)
    | QueuePurged(cutoff: real)
    | MessageRelayed(u: UserId)
    | RoomSearched(u: UserId, filter: Pref, pick: Option<RoomId>, now: real)
    | RoomSearchCancelled(u: UserId)
    | RoomSearchTimesOut(u: UserId, filter: Pref)
    | BotRestarts
    | QueueSwept(cutoff: real, rooms: seq<RoomId>)
    | RoomCreated(u: UserId, filter: Pref, capacity: int, now: real)
    | RoomLeft(u: UserId)
    | MemberKicked(u: UserId, target: UserId)
    | RoomDeleted(u: UserId)
    | RoomSwitched(u: UserId, isOpen: bool)
    | UserBanned(u: UserId)
    | RoomMessage(u: UserId)
    | MirrorSynced
    | RoomUiExited(u: UserId)
    | RoomShown(u: UserId)
    | RequestSent(id: string, u: UserId, target: UserId, reachable: bool, now: real)
    | RequestAccepted(id: string, u: UserId)
    | RequestRejected(id: string)
    | RequestsExpire(cutoff: real)

  function Apply(w: World, e: Event): World {
    match e
    case UserJoins(u) => w.(db := AddUser(w.db, u))
    case ReportRewarded(u, amount) => w.(db := Refund(w.db, u, amount, ReportReward))
    case ReferralCompleted(inviter, u) => w.(db := GrantReferral(w.db, inviter, u))
    case DirectMessageSent(u, amount) => (match Deduct(w.db, u, amount, DirectMessage) case None => w case Some(db) => w.(db := db))
    case ChatStarts(u, own, want, now) => StartChat(w, u, own, want, now)
    case FilteredSearch(u, own, want, choice, now) => RunSearch(w, u, own, want, choice, now)
    case ChatStops(u) => StopChat(w, u)
    case ChatNexts(u, own, saved, now) => NextChat(w, u, own, saved, now)
    case QueueTimesOut(u) => QueueTimeout(w, u)
    case QueuePurged(cutoff) => PurgeQueue(w, cutoff)
    case MessageRelayed(u) => Message(w, u)
    case RoomSearched(u, filter, pick, now) => SearchRoom(w, u, filter, pick, now)
    case RoomSearchCancelled(u) => CancelSearch(w, u)
    case RoomSearchTimesOut(u, filter) => SearchTimeout(w, u, filter)
    case BotRestarts => Restart(w)
    case QueueSwept(cutoff, rooms) => Sweep(w, cutoff, rooms)
    case RoomCreated(u, filter, capacity, now) => CreateFlow(w, u, filter, capacity, now)
    case RoomLeft(u) => LeaveFlow(w, u)
    case MemberKicked(u, target) => KickFlow(w, u, target)
    case RoomDeleted(u) => DeleteFlow(w, u)
    case RoomSwitched(u, isOpen) => SetOpenFlow(w, u, isOpen)
    case UserBanned(u) => EnforceBan(w, u)
    case RoomMessage(u) => (match Get(w.mirror.room, u) case None => w case Some(r) => HealMirror(w, u, r))
    case MirrorSynced => SyncMirror(w)
    case RoomUiExited(u) => ExitRoomUi(w, u)
    case RoomShown(u) => ShowRoom(w, u)
    case RequestSent(id, u, target, reachable, now) => SendRequest(w, id, u, target, reachable, now)
    case RequestAccepted(id, u) => AcceptRequest(w, id, u)
    case RequestRejected(id) => RejectRequest(w, id)
    case RequestsExpire(cutoff) => ExpireRequests(w, cutoff)
  }

  /** What the environment guarantees: the filtered search never offers its caller, a job
      that runs is pending, request ids are new, and a request reaches only its target. */
  predicate CanHappen(w: World, e: Event) {
    match e
    case FilteredSearch(u, _, _, choice, _) => choice.Some? ==> choice.value != u
    case RoomSearchTimesOut(u, filter) => filter in w.seekers.Jobs(u)
    case RequestSent(id, _, _, _, _) => id !in w.requests.store
    case RequestAccepted(id, u) => id in w.requests.store ==> u == w.requests.store[id].target
    case _ => true
  }

  /** The two guards the code lacks would have turned the event away. */
  ghost predicate Breaks(w: World, e: Event) {
    match e
    case FilteredSearch(u, own, want, choice, _) => SearchBreaks(w, u, own, want, choice)
    case ChatNexts(u, own, saved, _) => NextBreaks(w, u, own, saved)
    case _ => false
  }

  ghost predicate Allowed(w: World, e: Event) {
    CanHappen(w, e) && !Breaks(w, e)
  }

  function Run(w: World, es: seq<Event>): World
    decreases |es|
  {
    if es == [] then w else Run(Apply(w, es[0]), es[1..])
  }

  ghost predicate AllowedRun(w: World, es: seq<Event>)
    decreases |es|
  {
    es == [] || (Allowed(w, es[0]) && AllowedRun(Apply(w, es[0]), es[1..]))
  }

  const EMPTY := World(Db(map[], map[], map[], 1, []), Queue(map[], map[], map[]), Pairs(map[], {}, map[]),
                       Seekers(map[], map[], map[], map[]), Mirror(map[], {}), Requests(map[], map[], map[], []))

  lemma EmptyIsGood()
    ensures WorldInv(EMPTY)
  {
    assert RoomInv(EMPTY.db) && LedgerInv(EMPTY.db);
    assert forall u :: RoomFeeOk([], EMPTY.seekers, u);
    assert forall p, u :: Placed({}, EMPTY.seekers, p, u);
    assert forall u :: RequestFeeOk([], EMPTY.requests, u);
  }

  predicate ChatEvent(e: Event) {
    e.ChatStarts? || e.FilteredSearch? || e.ChatStops? || e.ChatNexts? || e.QueueTimesOut? || e.QueuePurged? || e.MessageRelayed?
  }

  predicate CoinEvent(e: Event) {
    || e.UserJoins? || e.ReportRewarded? || e.ReferralCompleted? || e.DirectMessageSent?
    || e.RequestSent? || e.RequestAccepted? || e.RequestRejected? || e.RequestsExpire?
  }

  lemma ChatEventExactly(w: World, e: Event)
    requires WorldInv(w) && CanHappen(w, e) && ChatEvent(e)
    ensures WorldInv(Apply(w, e)) <==> !Breaks(w, e)
  {
    hide WorldInv, SearchBreaks, NextBreaks, StartChat, RunSearch, StopChat, NextChat, QueueTimeout, PurgeQueue, Message;
    match e
    case ChatStarts(u, own, want, now) => StartChatKeeps(w, u, own, want, now);
    case FilteredSearch(u, own, want, choice, now) => RunSearchExactly(w, u, own, want, choice, now);
    case ChatStops(u) => StopChatKeeps(w, u);
    case ChatNexts(u, own, saved, now) => NextChatExactly(w, u, own, saved, now);
    case QueueTimesOut(u) => QueueTimeoutKeeps(w, u);
    case QueuePurged(cutoff) => PurgeQueueKeeps(w, cutoff);
    case MessageRelayed(u) => MessageKeeps(w, u);
  }

  lemma CoinEventKeeps(w: World, e: Event)
    requires WorldInv(w) && CanHappen(w, e) && CoinEvent(e)
    ensures WorldInv(Apply(w, e))
  {
    hide WorldInv, SendRequest, AcceptRequest, RejectRequest, ExpireRequests, AddUser, GrantReferral, Refund, Deduct;
    match e
    case UserJoins(u) => AddUserWorld(w, u);
    case ReportRewarded(u, amount) => RewardWorld(w, u, amount);
    case ReferralCompleted(inviter, u) => ReferralWorld(w, inviter, u);
    case DirectMessageSent(u, amount) => DirectMessageWorld(w, u, amount);
    case RequestSent(id, u, target, reachable, now) => SendRequestKeeps(w, id, u, target, reachable, now);
    case RequestAccepted(id, u) => AcceptRequestKeeps(w, id, u);
    case RequestRejected(id) => RejectRequestKeeps(w, id);
    case RequestsExpire(cutoff) => ExpireRequestsKeeps(w, cutoff);
  }

  lemma RoomEventKeeps(w: World, e: Event)
    requires WorldInv(w) && CanHappen(w, e) && !ChatEvent(e) && !CoinEvent(e)
    ensures WorldInv(Apply(w, e))
  {
    hide WorldInv, SearchRoom, CancelSearch, SearchTimeout, Restart, Sweep, CreateFlow, LeaveFlow, KickFlow, DeleteFlow,
      SetOpenFlow, EnforceBan, HealMirror, SyncMirror, ExitRoomUi, ShowRoom;
    match e
    case RoomSearched(u, filter, pick, now) => SearchRoomKeeps(w, u, filter, pick, now);
    case RoomSearchCancelled(u) => CancelSearchKeeps(w, u);
    case RoomSearchTimesOut(u, filter) => SearchTimeoutKeeps(w, u, filter);
    case BotRestarts => RestartKeeps(w);
    case QueueSwept(cutoff, rooms) => SweepKeeps(w, cutoff, rooms);
    case RoomCreated(u, filter, capacity, now) => CreateFlowKeeps(w, u, filter, capacity, now);
    case RoomLeft(u) => LeaveFlowKeeps(w, u);
    case MemberKicked(u, target) => KickFlowKeeps(w, u, target);
    case RoomDeleted(u) => DeleteFlowKeeps(w, u);
    case RoomSwitched(u, isOpen) => SetOpenFlowKeeps(w, u, isOpen);
    case UserBanned(u) => EnforceBanKeeps(w, u);
    case RoomMessage(u) => if u in w.mirror.room { HealMirrorKeeps(w, u, w.mirror.room[u]); }
    case MirrorSynced => SyncMirrorKeeps(w);
    case RoomUiExited(u) => RoomUiKeeps(w, u);
    case RoomShown(u) => RoomUiKeeps(w, u);
  }

  /** Of everything that can happen in a good state, whatever handler or job, exactly what
      the two missing guards would have turned away leads to a bad one. */
  lemma StepExactly(w: World, e: Event)
    requires WorldInv(w) && CanHappen(w, e)
    ensures WorldInv(Apply(w, e)) <==> !Breaks(w, e)
  {
    hide WorldInv, Apply, CanHappen, SearchBreaks, NextBreaks;
    if ChatEvent(e) { ChatEventExactly(w, e); } else if CoinEvent(e) { CoinEventKeeps(w, e); } else { RoomEventKeeps(w, e); }
  }

  lemma StepKeeps(w: World, e: Event)
    requires WorldInv(w) && Allowed(w, e)
    ensures WorldInv(Apply(w, e))
  {
    hide WorldInv, Apply, CanHappen, Breaks;
    StepExactly(w, e);
  }

  lemma {:induction false} RunKeeps(w: World, es: seq<Event>)
    requires WorldInv(w) && AllowedRun(w, es)
    ensures WorldInv(Run(w, es))
    decreases |es|
  {
    hide WorldInv, Apply, Allowed;
    if es != [] {
      StepKeeps(w, es[0]);
      RunKeeps(Apply(w, es[0]), es[1..]);
    }
  }

  /** Every reachable state of the bot satisfies the invariant. */
  lemma EveryReachableStateIsGood(es: seq<Event>)
    requires AllowedRun(EMPTY, es)
    ensures WorldInv(Run(EMPTY, es))
  {
    hide WorldInv;
    EmptyIsGood();
    RunKeeps(EMPTY, es);
  }
}
