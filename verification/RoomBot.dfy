/** The handlers of chat rooms as the bot runs them, step by step. */
module RoomBot {
  import opened Basics
  import opened SortedSets
  import opened Ledger
  import opened Database
  import opened World
  import opened BotStores
  import RoomHandlers
  import opened NoMissedRoomRuns
  import opened RoomSteps

  // ---------------------------------------------------------------- matching seekers with rooms

  /** The loop of the trigger: it goes on until nobody compatible waits or the room is at fault. */
  method TryFillRoomFromQueue(s: Stores, r: RoomId)
    modifies s.Keys()
    ensures s.Snapshot() == RoomHandlers.Fill(old(s.Snapshot()), r)
  {
    if r !in s.pg.rooms || s.pg.rooms[r].status != Open { return; }
    var buckets := RoomHandlers.CompatibleBuckets(s.pg.rooms[r].pref);
    ghost var w := s.Snapshot();
    while true
      invariant RoomHandlers.FillLoop(w, r, buckets) == RoomHandlers.FillLoop(s.Snapshot(), r, buckets)
      decreases RoomHandlers.QueueSize(s.seekers.Model())
    {
      var candidate := s.seekers.PeekOldest(buckets);
      if candidate.None? { return; }
      var (u, p) := candidate.value;
      var stop := OfferPlace(s, r, u, p);
      if stop { return; }
    }
  }

  /** One turn of the loop for the candidate at the head of the queue. */
  method OfferPlace(s: Stores, r: RoomId, u: UserId, p: Pref) returns (stop: bool)
    requires u in s.seekers.Model().Bucket(p)
    modifies s.Keys()
    ensures var w := old(s.Snapshot());
            var (db, res) := JoinRoom(w.db, u, r, RedisConflict(w, u));
            && stop == (res.Err? && RoomHandlers.RoomAtFault(res.error))
            && s.Snapshot() == (if stop then w else RoomHandlers.Settle(w, r, u, p, db, res))
    ensures !stop ==> RoomHandlers.QueueSize(s.seekers.Model()) < RoomHandlers.QueueSize(old(s.seekers.Model()))
  {
    hide JoinRoom, DequeueSeeker, CancelJobs, RedisConflict, RoomHandlers.QueueSize, Refund;
    ghost var w := s.Snapshot();
    var conflict := s.RedisConflictCheck(u);
    var res := s.pg.JoinChatRoom(u, r, conflict);
    ghost var db := s.pg.Model();
    RefusedJoin(w.db, u, r, conflict);
    SettleShrinks(w, r, u, p, db, res);
    if res.Err? && RoomHandlers.RoomAtFault(res.error) { return true; }
    s.seekers.Dequeue(u, p);
    s.seekers.CancelJobs(u);
    match res
    case Err(e) =>
      if e == In1to1 || e == InQueue { s.pg.RefundCoins(u, ROOM_SEARCH_COST, RoomConflictRefund); }
      return false;
    case Ok(_) =>
      s.mirror.SetActiveRoom(u, r);
      return false;
  }

  lemma RefusedJoin(db: Db, u: UserId, r: RoomId, conflict: Option<Error>)
    ensures JoinRoom(db, u, r, conflict).1.Err? ==> JoinRoom(db, u, r, conflict).0 == db
  {
  }

  method SweepRoomJoinQueue(s: Stores, cutoff: real) returns (rooms: seq<RoomId>)
    modifies s.Keys()
    ensures s.Snapshot() == RoomHandlers.Sweep(old(s.Snapshot()), cutoff, rooms)
    ensures ListsSpareRooms(old(s.Snapshot()).db, rooms)
  {
    s.seekers.PurgeStale(cutoff);
    ghost var w := s.Snapshot();
    rooms := s.pg.ListOpenRoomIdsWithSpareCapacity();
    for i := 0 to |rooms|
      invariant RoomHandlers.FillAll(w, rooms) == RoomHandlers.FillAll(s.Snapshot(), rooms[i..])
    {
      assert rooms[i..][1..] == rooms[i + 1..];
      TryFillRoomFromQueue(s, rooms[i]);
    }
  }

  /** `pick` is the room the query found. */
  method TryJoinRoom(s: Stores, u: UserId, filter: Pref, now: real) returns (pick: Option<RoomId>)
    modifies s.Keys()
    ensures RoomHandlers.IsSearchResult(old(s.Snapshot()).db, filter, pick)
    ensures s.Snapshot() == RoomHandlers.TryJoinRoom(old(s.Snapshot()), u, filter, pick, now)
  {
    hide RoomHandlers.IsSearchResult, JoinRoom, Refund, RoomHandlers.EnqueueSeeker;
    pick := s.pg.FindOpenRoomForJoin(filter);
    if pick.Some? { RefusedJoin(s.pg.Model(), u, pick.value, RedisConflict(s.Snapshot(), u)); }
    if pick.Some? {
      var conflict := s.RedisConflictCheck(u);
      var res := s.pg.JoinChatRoom(u, pick.value, conflict);
      if res.Ok? {
        s.mirror.SetActiveRoom(u, pick.value);
        return;
      }
      if res.error == In1to1 || res.error == InQueue {
        s.pg.RefundCoins(u, ROOM_SEARCH_COST, RoomConflictRefund);
        return;
      }
    }
    s.seekers.Enqueue(u, filter, now);
  }

  method SearchRoom(s: Stores, u: UserId, filter: Pref, now: real) returns (pick: Option<RoomId>)
    modifies s.Keys()
    ensures s.Snapshot() == RoomHandlers.SearchRoom(old(s.Snapshot()), u, filter, pick, now)
    ensures SearchGoesAhead(old(s.Snapshot()), u) ==>
              RoomHandlers.IsSearchResult(Deduct(old(s.Snapshot()).db, u, ROOM_SEARCH_COST, RoomSearch).value, filter, pick)
  {
    pick := None;
    var blocked := s.CheckCanStartRoomFlow(u);
    if blocked { return; }
    var balance := s.pg.DeductCoins(u, ROOM_SEARCH_COST, RoomSearch);
    if balance.None? { return; }
    pick := TryJoinRoom(s, u, filter, now);
  }

  method CancelSearch(s: Stores, u: UserId)
    modifies s.Keys()
    ensures s.Snapshot() == RoomHandlers.CancelSearch(old(s.Snapshot()), u)
  {
    var filter := s.IsWaitingRoomJoin(u);
    if filter.None? { return; }
    s.seekers.Dequeue(u, filter.value);
    s.seekers.CancelJobs(u);
    s.pg.RefundCoins(u, ROOM_SEARCH_COST, RoomCancelRefund);
  }

  method SearchTimeout(s: Stores, u: UserId, p: Pref)
    modifies s.Keys()
    ensures s.Snapshot() == RoomHandlers.SearchTimeout(old(s.Snapshot()), u, p)
  {
    s.seekers.TakeJob(u, p);
    var filter := s.IsWaitingRoomJoin(u);
    if filter.None? { return; }
    s.seekers.Dequeue(u, p);
    s.pg.RefundCoins(u, ROOM_SEARCH_COST, RoomTimeoutRefund);
  }

  /** The jobs of the scheduler live in memory and are gone when the bot restarts. */
  method Restart(s: Stores)
    modifies s.Keys()
    ensures s.Snapshot() == RoomHandlers.Restart(old(s.Snapshot()))
  {
    s.seekers.ForgetJobs();
  }

  // ---------------------------------------------------------------- membership

  method CreateFlow(s: Stores, u: UserId, pref: Pref, capacity: int, now: real)
    modifies s.Keys()
    ensures s.Snapshot() == RoomHandlers.CreateFlow(old(s.Snapshot()), u, pref, capacity, now)
  {
    var blocked := s.CheckCanStartRoomFlow(u);
    if blocked { return; }
    var conflict := s.RedisConflictCheck(u);
    var res := s.pg.CreateChatRoom(u, pref, capacity, conflict, now);
    if res.Err? { return; }
    s.mirror.SetActiveRoom(u, res.value);
    TryFillRoomFromQueue(s, res.value);
  }

  /** Mirror entries go first, then the free place is offered to the queue. */
  method AfterDeparture(s: Stores, u: UserId, d: Departure)
    modifies s.Keys()
    ensures s.Snapshot() == RoomHandlers.AfterDeparture(old(s.Snapshot()), u, old(s.Snapshot()).db, d)
  {
    s.mirror.ClearActiveRoom(u);
    if d.autoDeleted {
      s.mirror.ClearEach(d.remaining);
      assert old(s.mirror.Model()).room - {u} - d.remaining == old(s.mirror.Model()).room - ({u} + d.remaining);
      assert old(s.mirror.Model()).suppressed - {u} - d.remaining == old(s.mirror.Model()).suppressed - ({u} + d.remaining);
    } else {
      TryFillRoomFromQueue(s, d.room);
    }
  }

  method LeaveFlow(s: Stores, u: UserId)
    modifies s.Keys()
    ensures s.Snapshot() == RoomHandlers.LeaveFlow(old(s.Snapshot()), u)
  {
    var res := s.pg.LeaveChatRoom(u);
    match res
    case Err(e) => if e == NotFound { s.mirror.ClearActiveRoom(u); }
    case Ok(d) => AfterDeparture(s, u, d);
  }

  method KickFlow(s: Stores, owner: UserId, target: UserId)
    modifies s.Keys()
    ensures s.Snapshot() == RoomHandlers.KickFlow(old(s.Snapshot()), owner, target)
  {
    var res := s.pg.KickRoomMember(owner, target);
    if res.Ok? { AfterDeparture(s, target, res.value); }
  }

  method DeleteFlow(s: Stores, u: UserId)
    modifies s.Keys()
    ensures s.Snapshot() == RoomHandlers.DeleteFlow(old(s.Snapshot()), u)
  {
    var res := s.pg.DeleteChatRoom(u);
    match res
    case Err(e) => if e == NotFound { s.mirror.ClearActiveRoom(u); }
    case Ok(d) => s.mirror.ClearEach(d.members);
  }

  method SetOpenFlow(s: Stores, u: UserId, isOpen: bool)
    modifies s.Keys()
    ensures s.Snapshot() == RoomHandlers.SetOpenFlow(old(s.Snapshot()), u, isOpen)
  {
    var res := s.pg.SetRoomOpenStatus(u, isOpen);
    match res
    case Err(e) => if e == NotFound { s.mirror.ClearActiveRoom(u); }
    case Ok(d) => s.mirror.SwitchEach(d.members - {u}, isOpen);
  }

  method EnforceBan(s: Stores, u: UserId)
    modifies s.Keys()
    ensures s.Snapshot() == RoomHandlers.EnforceBan(old(s.Snapshot()), u)
  {
    var partner := s.pairs.ClearPartner(u);
    var out := s.pg.RemoveBannedUserFromRoom(u);
    if out.None? { return; }
    s.mirror.ClearActiveRoom(u);
  }

  // ---------------------------------------------------------------- the mirror

  /** The check a relayed message starts with. */
  method HealMirror(s: Stores, u: UserId, r: RoomId) returns (confirmed: bool)
    modifies s.Keys()
    ensures s.Snapshot() == RoomHandlers.HealMirror(old(s.Snapshot()), u, r)
    ensures confirmed ==> s.Snapshot() == old(s.Snapshot()) && IsMember(s.Snapshot().db, r, u)
  {
    var ids := if r in s.pg.members then s.pg.members[r] else {};
    if r !in s.pg.rooms || s.pg.rooms[r].status == Deleted || u !in ids {
      s.mirror.ClearActiveRoom(u);
      return false;
    }
    return true;
  }

  /** The exit button, reached only while the room keyboard is on. */
  method ExitRoomUi(s: Stores, u: UserId)
    modifies s.Keys()
    ensures s.Snapshot() == RoomHandlers.ExitRoomUi(old(s.Snapshot()), u)
  {
    if u !in s.mirror.room || u in s.mirror.suppressed { return; }
    s.mirror.SwitchEach({u}, false);
  }

  /** Showing the room again switches its keyboard back on, unless the room is gone. */
  method ShowRoom(s: Stores, u: UserId)
    modifies s.Keys()
    ensures s.Snapshot() == RoomHandlers.ShowRoom(old(s.Snapshot()), u)
  {
    if u !in s.mirror.room { return; }
    var r := s.mirror.room[u];
    if r !in s.pg.rooms || s.pg.rooms[r].status == Deleted {
      s.mirror.ClearActiveRoom(u);
      return;
    }
    s.mirror.SwitchEach({u}, true);
  }

  /** The sync job goes through the users with an active room and sets missing entries. */
  method SyncMirror(s: Stores)
    modifies s.Keys()
    ensures s.Snapshot() == RoomHandlers.SyncMirror(old(s.Snapshot()))
  {
    ghost var w := s.Snapshot();
    var listed := set u | u in s.pg.users && s.pg.users[u].activeRoom.Some?;
    var todo := listed;
    while todo != {}
      invariant todo <= listed && s.Snapshot() == w.(mirror := s.mirror.Model()) && s.mirror.suppressed == w.mirror.suppressed
      invariant forall u ::
          Get(s.mirror.room, u) == if u in listed - todo && u !in w.mirror.room then ActiveRoom(w.db, u) else Get(w.mirror.room, u)
      decreases todo
    {
      var u :| u in todo;
      if u !in s.mirror.room { s.mirror.SetActiveRoom(u, s.pg.users[u].activeRoom.value); }
      todo := todo - {u};
    }
    SameEntries(s.mirror.room, RoomHandlers.SyncMirror(w).mirror.room);
  }

  lemma SameEntries(m: map<UserId, RoomId>, n: map<UserId, RoomId>)
    requires forall u :: Get(m, u) == Get(n, u)
    ensures m == n
  {
    forall u ensures u in m <==> u in n { assert Get(m, u) == Get(n, u); }
    forall u | u in m ensures m[u] == n[u] { assert Get(m, u) == Get(n, u); }
  }
}
