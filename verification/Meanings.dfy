/** Every event of the bot, told by what users can see of it, and nothing else changing. */
module Meanings {
  import opened Basics
  import opened Ledger
  import opened Database
  import opened MatchQueue
  import opened World
  import opened ChatHandlers
  import opened RoomHandlers
  import opened RequestHandlers
  import opened WorldInvariant
  import opened BotRuns
  import opened NoMissedRooms
  import opened NoMissedRoomRuns
  import opened Effects
  import opened ChatOutcomes
  import opened RequestOutcomes
  import opened RoomOutcomes
  import opened MemberOutcomes

  /** Only the database changed. */
  predicate OnlyDb(w: World, w': World) {
    w' == w.(db := w'.db)
  }

  ghost predicate AccountMeans(w: World, e: Event, w': World)
    requires e.UserJoins? || e.ReportRewarded? || e.ReferralCompleted? || e.DirectMessageSent?
  {
    match e
    case UserJoins(u) => JoinMeans(w, w', u)
    case ReportRewarded(u, amount) =>
      OnlyDb(w, w') && if u in w.db.users then Booked(w.db, w'.db, u, amount, ReportReward) else w' == w
    case ReferralCompleted(inviter, u) => OnlyDb(w, w') && ReferralMeans(w.db, w'.db, inviter, u)
    case DirectMessageSent(u, amount) =>
      OnlyDb(w, w') && if CanPay(w.db, u, amount) then Booked(w.db, w'.db, u, 0 - amount, DirectMessage) else w' == w
  }

  ghost predicate ChatMeans(w: World, e: Event, w': World)
    requires ChatEvent(e)
  {
    match e
    case ChatStarts(u, own, want, now) => StartMeans(w, w', u, own, want, now)
    case FilteredSearch(u, own, want, choice, now) => FilteredSearchMeans(w, w', u, own, want, choice, now)
    case ChatStops(u) => StopMeans(w, w', u)
    case ChatNexts(u, own, saved, now) => NextMeans(w, w', u, own, saved, now)
    case QueueTimesOut(u) => QueueTimeoutMeans(w, w', u)
    case QueuePurged(cutoff) => PurgeQueueMeans(w, w', cutoff)
    case MessageRelayed(u) => MessageMeans(w, w', u)
  }

  ghost predicate RequestMeans(w: World, e: Event, w': World)
    requires e.RequestSent? || e.RequestAccepted? || e.RequestRejected? || e.RequestsExpire?
  {
    match e
    case RequestSent(id, u, target, reachable, now) => SendMeans(w, w', id, u, target, reachable, now)
    case RequestAccepted(id, u) => AcceptMeans(w, w', id, u)
    case RequestRejected(id) => RejectMeans(w, w', id)
    case RequestsExpire(cutoff) => ExpiryMeans(w, w', cutoff)
  }

  predicate QueueEvent(e: Event) {
    e.RoomSearched? || e.RoomSearchCancelled? || e.RoomSearchTimesOut? || e.BotRestarts? || e.QueueSwept?
  }

  ghost predicate SeekingMeans(w: World, e: Event, w': World)
    requires QueueEvent(e)
  {
    match e
    case RoomSearched(u, filter, pick, now) => IsSearchResult(w.db, filter, pick) ==> SearchMeans(w, w', u, filter, pick, now)
    case RoomSearchCancelled(u) => CancelMeans(w, w', u)
    case RoomSearchTimesOut(u, filter) => TimeoutMeans(w, w', u, filter)
    case BotRestarts => RestartMeans(w, w')
    case QueueSwept(cutoff, rooms) => SweepMeans(w, w', cutoff) && (ListsSpareRooms(w.db, rooms) ==> NoMissedRoom(w'))
  }

  predicate MemberEvent(e: Event) {
    e.RoomCreated? || e.RoomLeft? || e.MemberKicked? || e.RoomDeleted? || e.RoomSwitched? || e.UserBanned?
  }

  ghost predicate MemberMeans(w: World, e: Event, w': World)
    requires MemberEvent(e)
  {
    match e
    case RoomCreated(u, filter, capacity, now) => CreateMeans(w, w', u, filter, capacity, now)
    case RoomLeft(u) => LeaveMeans(w, w', u)
    case MemberKicked(u, target) => KickMeans(w, w', u, target)
    case RoomDeleted(u) => DeleteMeans(w, w', u)
    case RoomSwitched(u, isOpen) => SwitchMeans(w, w', u, isOpen)
    case UserBanned(u) => BanMeans(w, w', u)
  }

  ghost predicate MirrorMeans(w: World, e: Event, w': World)
    requires e.RoomMessage? || e.MirrorSynced? || e.RoomUiExited? || e.RoomShown?
  {
    match e
    case RoomMessage(u) => (match Get(w.mirror.room, u) case None => w' == w case Some(r) => HealMeans(w, w', u, r))
    case MirrorSynced => SyncMeans(w, w')
    case RoomUiExited(u) => ExitUiMeans(w, w', u)
    case RoomShown(u) => ShowMeans(w, w', u)
  }

  ghost predicate Means(w: World, e: Event, w': World) {
    if ChatEvent(e) then ChatMeans(w, e, w')
    else if e.RequestSent? || e.RequestAccepted? || e.RequestRejected? || e.RequestsExpire? then RequestMeans(w, e, w')
    else if QueueEvent(e) then SeekingMeans(w, e, w')
    else if MemberEvent(e) then MemberMeans(w, e, w')
    else if e.RoomMessage? || e.MirrorSynced? || e.RoomUiExited? || e.RoomShown? then MirrorMeans(w, e, w')
    else AccountMeans(w, e, w')
  }

  lemma AccountEvents(w: World, e: Event)
    requires e.UserJoins? || e.ReportRewarded? || e.ReferralCompleted? || e.DirectMessageSent?
    ensures AccountMeans(w, e, Apply(w, e))
  {
    hide Post, Deduct, Refund, GrantReferral, AddUser, Booked, JoinMeans, ReferralMeans;
    match e
    case UserJoins(u) => JoinsOutcome(w, u);
    case ReportRewarded(u, amount) =>
      if u in w.db.users { RefundBooks(w.db, u, amount, ReportReward); } else { NobodyRewarded(w, u, amount); }
    case ReferralCompleted(inviter, u) => ReferralOutcome(w.db, inviter, u);
    case DirectMessageSent(u, amount) => DeductBooks(w.db, u, amount, DirectMessage);
  }

  lemma NobodyRewarded(w: World, u: UserId, amount: nat)
    requires u !in w.db.users
    ensures Refund(w.db, u, amount, ReportReward) == w.db
  {
  }

  lemma ChatEvents(w: World, e: Event)
    requires WorldInv(w) && CanHappen(w, e) && ChatEvent(e)
    ensures ChatMeans(w, e, Apply(w, e))
  {
    hide WorldInv, StartChat, RunSearch, StopChat, NextChat, QueueTimeout, PurgeQueue, Message, StartMeans, FilteredSearchMeans,
      StopMeans, NextMeans, QueueTimeoutMeans, PurgeQueueMeans, MessageMeans;
    match e
    case ChatStarts(u, own, want, now) => StartOutcome(w, u, own, want, now);
    case FilteredSearch(u, own, want, choice, now) => FilteredSearchOutcome(w, u, own, want, choice, now);
    case ChatStops(u) => StopOutcome(w, u);
    case ChatNexts(u, own, saved, now) => NextOutcome(w, u, own, saved, now);
    case QueueTimesOut(u) => QueueTimeoutOutcome(w, u);
    case QueuePurged(cutoff) => PurgeQueueOutcome(w, cutoff);
    case MessageRelayed(u) => MessageOutcome(w, u);
  }

  lemma RequestEvents(w: World, e: Event)
    requires WorldInv(w) && CanHappen(w, e) && (e.RequestSent? || e.RequestAccepted? || e.RequestRejected? || e.RequestsExpire?)
    ensures RequestMeans(w, e, Apply(w, e))
  {
    hide WorldInv, SendRequest, AcceptRequest, RejectRequest, ExpireRequests, SendMeans, AcceptMeans, RejectMeans, ExpiryMeans;
    match e
    case RequestSent(id, u, target, reachable, now) => SendOutcome(w, id, u, target, reachable, now);
    case RequestAccepted(id, u) => AcceptOutcome(w, id, u);
    case RequestRejected(id) => RejectOutcome(w, id);
    case RequestsExpire(cutoff) => ExpiryOutcome(w, cutoff);
  }

  lemma SeekingEvents(w: World, e: Event)
    requires WorldInv(w) && CanHappen(w, e) && QueueEvent(e)
    ensures SeekingMeans(w, e, Apply(w, e))
  {
    hide WorldInv, SearchRoom, CancelSearch, SearchTimeout, Restart, Sweep, SearchMeans, CancelMeans, TimeoutMeans, RestartMeans,
      SweepMeans, IsSearchResult, NoMissedRoom;
    match e
    case RoomSearched(u, filter, pick, now) => if IsSearchResult(w.db, filter, pick) { SearchOutcome(w, u, filter, pick, now); }
    case RoomSearchCancelled(u) => CancelOutcome(w, u);
    case RoomSearchTimesOut(u, filter) => TimeoutOutcome(w, u, filter);
    case BotRestarts => RestartOutcome(w);
    case QueueSwept(cutoff, rooms) => SweepOutcome(w, cutoff, rooms);
  }

  lemma MemberEvents(w: World, e: Event)
    requires WorldInv(w) && MemberEvent(e)
    ensures MemberMeans(w, e, Apply(w, e))
  {
    hide WorldInv, CreateFlow, LeaveFlow, KickFlow, DeleteFlow, SetOpenFlow, EnforceBan, CreateMeans, LeaveMeans, KickMeans,
      DeleteMeans, SwitchMeans, BanMeans;
    match e
    case RoomCreated(u, filter, capacity, now) => CreateOutcome(w, u, filter, capacity, now);
    case RoomLeft(u) => LeaveOutcome(w, u);
    case MemberKicked(u, target) => KickOutcome(w, u, target);
    case RoomDeleted(u) => DeleteOutcome(w, u);
    case RoomSwitched(u, isOpen) => SwitchOutcome(w, u, isOpen);
    case UserBanned(u) => BannedOutcome(w, u);
  }

  lemma MirrorEvents(w: World, e: Event)
    requires e.RoomMessage? || e.MirrorSynced? || e.RoomUiExited? || e.RoomShown?
    ensures MirrorMeans(w, e, Apply(w, e))
  {
    hide HealMirror, SyncMirror, ExitRoomUi, ShowRoom, HealMeans, SyncMeans, ExitUiMeans, ShowMeans;
    match e
    case RoomMessage(u) => if u in w.mirror.room { HealOutcome(w, u, w.mirror.room[u]); }
    case MirrorSynced => SyncOutcome(w);
    case RoomUiExited(u) => ExitUiOutcome(w, u);
    case RoomShown(u) => ShowOutcome(w, u);
  }

  /** Whatever happens in a good state means what it says to everybody. */
  lemma EveryEventMeansWhatItSays(w: World, e: Event)
    requires WorldInv(w) && CanHappen(w, e)
    ensures Means(w, e, Apply(w, e))
  {
    hide WorldInv, CanHappen, Apply, ChatMeans, RequestMeans, SeekingMeans, MemberMeans, MirrorMeans, AccountMeans;
    if ChatEvent(e) { ChatEvents(w, e); }
    else if e.RequestSent? || e.RequestAccepted? || e.RequestRejected? || e.RequestsExpire? { RequestEvents(w, e); }
    else if QueueEvent(e) { SeekingEvents(w, e); }
    else if MemberEvent(e) { MemberEvents(w, e); }
    else if e.RoomMessage? || e.MirrorSynced? || e.RoomUiExited? || e.RoomShown? { MirrorEvents(w, e); }
    else { AccountEvents(w, e); }
  }

  ghost predicate AllMean(w: World, es: seq<Event>)
    decreases |es|
  {
    es != [] ==> Means(w, es[0], Apply(w, es[0])) && AllMean(Apply(w, es[0]), es[1..])
  }

  lemma {:induction false} RunMeans(w: World, es: seq<Event>)
    requires WorldInv(w) && AllowedRun(w, es)
    ensures AllMean(w, es)
    decreases |es|
  {
    hide WorldInv, Apply, Breaks, CanHappen, Means;
    if es != [] {
      EveryEventMeansWhatItSays(w, es[0]);
      StepKeeps(w, es[0]);
      RunMeans(Apply(w, es[0]), es[1..]);
    }
  }

  /** In every run from the empty stores. */
  lemma EveryRunMeansWhatItSays(es: seq<Event>)
    requires AllowedRun(EMPTY, es)
    ensures AllMean(EMPTY, es)
  {
    hide WorldInv, AllMean, AllowedRun;
    EmptyIsGood();
    RunMeans(EMPTY, es);
  }
}
