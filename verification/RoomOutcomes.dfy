/** What each handler of chat rooms means to the people involved: who is in which room, whose
    keyboard shows it, who waits, and whose coins moved; and what stays as it was for
    everybody else. */
module RoomOutcomes {
  import opened Basics
  import opened SortedSets
  import opened Ledger
  import opened Database
  import opened RoomInvariant
  import opened RoomTransactions
  import opened MatchQueue
  import opened World
  import opened RoomHandlers
  import opened WorldInvariant
  import opened ChatSteps
  import opened RoomSteps
  import opened RoomFlows
  import opened FillOrder
  import opened FillExactly
  import opened NoMissedRooms
  import opened NoMissedRoomRuns
  import opened Effects
  import opened FillEffects

  // ---------------------------------------------------------------- creating

  /** The capacity asked for, or the nearest one there is. */
  lemma ClampOutcome(capacity: int)
    ensures 2 <= Clamp(capacity) <= 5
    ensures 2 <= capacity <= 5 ==> Clamp(capacity) == capacity
    ensures capacity < 2 ==> Clamp(capacity) == 2
    ensures capacity > 5 ==> Clamp(capacity) == 5
  {
  }

  /** The new room with its owner as only member, the charge, and nothing else. */
  ghost predicate Founded(db: Db, db': Db, u: UserId, pref: Pref, capacity: int, now: real) {
    var r := db.nextId;
    && db'.rooms == db.rooms[r := Room(u, pref, capacity, Open, now)] && db'.nextId == r + 1
    && MembersOf(db', r) == {u} && (forall s | s != r :: MembersOf(db', s) == MembersOf(db, s))
    && (forall x :: ActiveRoom(db', x) == if x == u then Some(r) else ActiveRoom(db, x))
    && db'.ledger == db.ledger + [Txn(u, -ROOM_CREATE_COST, RoomCreate)] && OnlyMoves(db, db', u, -ROOM_CREATE_COST)
  }

  lemma FoundingOutcome(db: Db, u: UserId, pref: Pref, capacity: int, conflict: Option<Error>, now: real)
    requires RoomInv(db)
    ensures var (db', res) := CreateRoom(db, u, pref, capacity, conflict, now);
            && (res.Ok? <==> ActiveRoom(db, u) == None && conflict == None && CanPay(db, u, ROOM_CREATE_COST))
            && (res.Err? ==> db' == db)
            && (res.Ok? ==> res.value == db.nextId && Founded(db, db', u, pref, Clamp(capacity), now))
  {
    if u in db.users && ActiveRoom(db, u) == None {
      PostBooks(db, u, -ROOM_CREATE_COST, RoomCreate);
      var paid := Post(db, u, -ROOM_CREATE_COST, RoomCreate);
      NothingAtNext(db);
      InsertOutcome(paid, u, pref, Clamp(capacity), now);
    }
    hide Clamp, RoomInv, InsertRoom, Post;
  }

  lemma NothingAtNext(db: Db)
    requires RoomInv(db)
    ensures MembersOf(db, db.nextId) == {}
  {
    assert db.nextId in db.rooms ==> RoomOk(db, db.nextId);
    forall x ensures x !in MembersOf(db, db.nextId) { assert IsMember(db, db.nextId, x) ==> db.nextId in db.rooms; }
  }

  lemma InsertOutcome(db: Db, u: UserId, pref: Pref, capacity: int, now: real)
    requires u in db.users && ActiveRoom(db, u) == None && MembersOf(db, db.nextId) == {}
    ensures var db' := InsertRoom(db, u, pref, capacity, now);
            var r := db.nextId;
            && db'.rooms == db.rooms[r := Room(u, pref, capacity, Open, now)] && db'.nextId == r + 1
            && MembersOf(db', r) == {u} && (forall s | s != r :: MembersOf(db', s) == MembersOf(db, s))
            && (forall x :: ActiveRoom(db', x) == if x == u then Some(r) else ActiveRoom(db, x))
            && NoCoinMoves(db, db')
  {
  }

  /** Creating a room succeeds for a free user without a room who can pay, and costs twenty
      coins. The owner's mirror names the new room; the queue fills it up; everybody else's
      mirror changes only with a place in it. */
  ghost predicate CreateMeans(w: World, w': World, u: UserId, pref: Pref, capacity: int, now: real) {
    if !CanCreate(w, u) then w' == w else
      var r := w.db.nextId;
      && w'.db.rooms == w.db.rooms[r := Room(u, pref, Clamp(capacity), Open, now)]
      && ActiveRoom(w'.db, u) == Some(r) && Get(w'.mirror.room, u) == Some(r)
      && (u in w'.mirror.suppressed <==> u in w.mirror.suppressed)
      && (forall v | v != u :: RoomFollows(w, w', v)) && SeekersServed(w.seekers, w'.seekers) && NobodyMissed(w', r)
      && (forall s | s != r :: MembersOf(w'.db, s) == MembersOf(w.db, s))
      && w'.db.ledger == w.db.ledger + [Txn(u, -ROOM_CREATE_COST, RoomCreate)]
      && OnlyMoves(w.db, w'.db, u, 0 - ROOM_CREATE_COST) && OnlyRoomSide(w, w')
  }

  lemma CreateOutcome(w: World, u: UserId, pref: Pref, capacity: int, now: real)
    requires WorldInv(w)
    ensures CreateMeans(w, CreateFlow(w, u, pref, capacity, now), u, pref, capacity, now)
  {
    hide Sum, Count, LedgerInv, SeekersInv, RequestsInv, MirrorInv, NoMissedMatch, SearchFees, PairsInv,
      Exclusive, Fill, CreateRoom, RoomInv, SeekersServed, NobodyMissed, Clamp, Seekers.Filter;
    FoundingOutcome(w.db, u, pref, capacity, RedisConflict(w, u), now);
    if CanCreate(w, u) {
      CreatedWorld(w, u, pref, capacity, now);
      var r := w.db.nextId;
      var db := CreateRoom(w.db, u, pref, capacity, None, now).0;
      var w1 := w.(db := db, mirror := w.mirror.(room := w.mirror.room[u := r]));
      FillOutcome(w1, r);
      FillSettles(w1, r);
      ThenFilled(w, w1, Fill(w1, r), u, r, pref, Clamp(capacity), now);
    }
  }

  lemma ThenFilled(w: World, w1: World, w': World, u: UserId, r: RoomId, pref: Pref, capacity: int, now: real)
    requires Founded(w.db, w1.db, u, pref, capacity, now) && r == w.db.nextId && ActiveRoom(w.db, u) == None
    requires w1 == w.(db := w1.db, mirror := w.mirror.(room := w.mirror.room[u := r])) && Fills(w1, w')
    ensures ActiveRoom(w'.db, u) == Some(r) && Get(w'.mirror.room, u) == Some(r)
    ensures u in w'.mirror.suppressed <==> u in w.mirror.suppressed
    ensures forall v | v != u :: RoomFollows(w, w', v)
    ensures OnlyMoves(w.db, w'.db, u, 0 - ROOM_CREATE_COST)
  {
    hide Seekers.Filter, SeekersServed;
    assert RoomFollows(w1, w', u);
    forall v | v != u ensures RoomFollows(w, w', v) { assert RoomFollows(w1, w', v); }
    hide ActiveRoom;
    forall x | x in w.db.users ensures Coins(w'.db, x) == Coins(w.db, x) + (if x == u then 0 - ROOM_CREATE_COST else 0) {
      assert Coins(w1.db, x) == Coins(w.db, x) + (if x == u then -ROOM_CREATE_COST else 0);
    }
  }

  // ---------------------------------------------------------------- searching

  /** One more member, and its active room, and nothing else. */
  ghost predicate Joined(db: Db, db': Db, u: UserId, r: RoomId) {
    && db'.rooms == db.rooms && db'.nextId == db.nextId && NoCoinMoves(db, db')
    && (forall s :: MembersOf(db', s) == MembersOf(db, s) + (if s == r then {u} else {}))
    && (forall x :: ActiveRoom(db', x) == if x == u then Some(r) else ActiveRoom(db, x))
  }

  lemma JoinOutcome(db: Db, u: UserId, r: RoomId)
    requires u in db.users && HasSpace(db, r)
    ensures var (db', res) := JoinRoom(db, u, r, None);
            && (ActiveRoom(db, u) == None ==> res.Ok? && Joined(db, db', u, r))
            && (ActiveRoom(db, u).Some? ==> res == Err(HasActiveRoom) && db' == db)
  {
  }

  /** The seeker waits from now on in its bucket, with one more job; nobody else is touched. */
  ghost predicate StartsSeeking(w: World, w': World, u: UserId, filter: Pref, now: real) {
    && Entry(w'.seekers, filter, u) == Some(now) && w'.seekers.Jobs(u) == w.seekers.Jobs(u) + multiset{filter}
    && w'.seekers.Filter(u) == Some(filter) && OthersSeekOn(w, w', u) && w'.mirror == w.mirror
  }

  lemma SeekingOutcome(w: World, u: UserId, filter: Pref, now: real)
    requires w.seekers.Filter(u) == None
    ensures StartsSeeking(w, w.(seekers := EnqueueSeeker(w.seekers, u, filter, now)), u, filter, now)
  {
    EnqueueFilters(w.seekers, u, filter, now);
    EnqueuedEntries(w.seekers, u, filter, now);
    hide EnqueueSeeker, Entry, Seekers.Filter, Seekers.Bucket;
  }

  lemma EnqueuedEntries(s: Seekers, u: UserId, p: Pref, now: real)
    ensures var s' := EnqueueSeeker(s, u, p, now);
            && (forall q, v :: Entry(s', q, v) == if v == u && q == p then Some(now) else Entry(s, q, v))
            && forall v :: s'.Jobs(v) == if v == u then s.Jobs(u) + multiset{p} else s.Jobs(v)
  {
  }

  /** A room search: turned away on either side or without the coins; else charged three
      coins, and in the room found, or in the queue of its filter with a timeout job. */
  ghost predicate SearchMeans(w: World, w': World, u: UserId, filter: Pref, pick: Option<RoomId>, now: real) {
    if CannotStartRoomFlow(w, u) || !CanPay(w.db, u, ROOM_SEARCH_COST) then w' == w
    else
      && w'.db.ledger == w.db.ledger + [Txn(u, -ROOM_SEARCH_COST, RoomSearch)]
      && OnlyMoves(w.db, w'.db, u, 0 - ROOM_SEARCH_COST) && OnlyRoomSide(w, w') && w'.db.rooms == w.db.rooms
      && (if pick.Some? && ActiveRoom(w.db, u) == None
          then && (forall s :: MembersOf(w'.db, s) == MembersOf(w.db, s) + (if Some(s) == pick then {u} else {}))
               && (forall x :: ActiveRoom(w'.db, x) == if x == u then pick else ActiveRoom(w.db, x))
               && w'.mirror == w.mirror.(room := w'.mirror.room)
               && (forall x :: Get(w'.mirror.room, x) == if x == u then pick else Get(w.mirror.room, x))
               && w'.seekers == w.seekers
          else SameRooms(w.db, w'.db) && StartsSeeking(w, w', u, filter, now))
  }

  lemma SearchOutcome(w: World, u: UserId, filter: Pref, pick: Option<RoomId>, now: real)
    requires WorldInv(w) && IsSearchResult(w.db, filter, pick)
    ensures SearchMeans(w, SearchRoom(w, u, filter, pick, now), u, filter, pick, now)
  {
    hide WorldInv, Deduct, JoinRoom, EnqueueSeeker, Joined, Booked, StartsSeeking, SearchMeans;
    DeductBooks(w.db, u, ROOM_SEARCH_COST, RoomSearch);
    if CannotStartRoomFlow(w, u) || !CanPay(w.db, u, ROOM_SEARCH_COST) {
      TurnedAwaySearch(w, u, filter, pick, now);
    } else {
      var db := Deduct(w.db, u, ROOM_SEARCH_COST, RoomSearch).value;
      var w1 := w.(db := db);
      BookedParts(w.db, db, u, -ROOM_SEARCH_COST, RoomSearch);
      SeekingOutcome(w1, u, filter, now);
      if pick.Some? { JoinOutcome(db, u, pick.value); }
      SearchAnswer(w, w1, TryJoinRoom(w1, u, filter, pick, now), u, filter, pick, now);
    }
  }

  lemma TurnedAwaySearch(w: World, u: UserId, filter: Pref, pick: Option<RoomId>, now: real)
    requires CannotStartRoomFlow(w, u) || !CanPay(w.db, u, ROOM_SEARCH_COST)
    ensures SearchMeans(w, w, u, filter, pick, now)
  {
  }

  lemma BookedParts(db: Db, db': Db, u: UserId, amount: int, reason: Reason)
    requires Booked(db, db', u, amount, reason)
    ensures u in db.users && db'.ledger == db.ledger + [Txn(u, amount, reason)] && OnlyMoves(db, db', u, amount) && SameRooms(db, db')
  {
  }

  /** The answer to a search that was paid for in `w1`. */
  lemma SearchAnswer(w: World, w1: World, w': World, u: UserId, filter: Pref, pick: Option<RoomId>, now: real)
    requires w1 == w.(db := w1.db) && Booked(w.db, w1.db, u, -ROOM_SEARCH_COST, RoomSearch)
    requires if pick.Some? && ActiveRoom(w.db, u) == None
             then Joined(w1.db, w'.db, u, pick.value)
                  && w' == w1.(db := w'.db, mirror := w1.mirror.(room := w1.mirror.room[u := pick.value]))
             else w' == w1.(seekers := w'.seekers) && StartsSeeking(w1, w', u, filter, now)
    requires !CannotStartRoomFlow(w, u) && CanPay(w.db, u, ROOM_SEARCH_COST)
    ensures SearchMeans(w, w', u, filter, pick, now)
  {
    hide Entry, Seekers.Filter, Seekers.Jobs, ActiveRoom, CannotStartRoomFlow;
    forall x | x in w.db.users ensures Coins(w'.db, x) == Coins(w.db, x) + (if x == u then 0 - ROOM_SEARCH_COST else 0) {
      assert Coins(w1.db, x) == Coins(w.db, x) + (if x == u then -ROOM_SEARCH_COST else 0);
    }
  }

  // ---------------------------------------------------------------- giving up a search

  /** Off the queue and without jobs, and nobody else is touched. */
  ghost predicate StopsSeeking(w: World, w': World, u: UserId) {
    (forall p :: Entry(w'.seekers, p, u) == None) && w'.seekers.Filter(u) == None && OthersSeekOn(w, w', u)
  }

  /** Cancelling ends the wait and its jobs and gives the three coins back. */
  ghost predicate CancelMeans(w: World, w': World, u: UserId) {
    if w.seekers.Filter(u).None? then w' == w
    else && StopsSeeking(w, w', u) && w'.seekers.Jobs(u) == multiset{}
         && Booked(w.db, w'.db, u, ROOM_SEARCH_COST, RoomCancelRefund) && w' == w.(db := w'.db, seekers := w'.seekers)
  }

  lemma CancelOutcome(w: World, u: UserId)
    requires WorldInv(w)
    ensures CancelMeans(w, CancelSearch(w, u), u)
  {
    if w.seekers.Filter(u).Some? {
      var p := w.seekers.Filter(u).value;
      WorldParts(w);
      SeekerAt(w.db, w.seekers, u);
      ReleasedFilters(w, u, p);
      ReleasedEntries(w.seekers, u, p);
      ReleasedJobs(w.seekers, u, p);
      RefundBooks(w.db, u, ROOM_SEARCH_COST, RoomCancelRefund);
      assert forall q :: q != p ==> Entry(w.seekers, q, u) == None;
      hide WorldInv, Entry, Seekers.Filter, CancelJobs, DequeueSeeker, Refund, Booked, Seekers.Bucket;
    }
  }

  /** A timeout job that finds its user waiting under its filter ends the wait and pays back; one
      whose user waits under another filter pays back and leaves the wait alone; one whose
      user waits no longer does nothing. The job itself is gone in any case. */
  ghost predicate TimeoutMeans(w: World, w': World, u: UserId, p: Pref) {
    && w'.seekers.Jobs(u) == w.seekers.Jobs(u) - multiset{p} && OthersSeekOn(w, w', u)
    && (w.seekers.Filter(u) == Some(p) ==> StopsSeeking(w, w', u))
    && (w.seekers.Filter(u) != Some(p) ==>
          w'.seekers.Filter(u) == w.seekers.Filter(u) && forall q :: Entry(w'.seekers, q, u) == Entry(w.seekers, q, u))
    && (if w.seekers.Filter(u).Some? then Booked(w.db, w'.db, u, ROOM_SEARCH_COST, RoomTimeoutRefund) else w'.db == w.db)
    && w' == w.(db := w'.db, seekers := w'.seekers)
  }

  lemma TimeoutOutcome(w: World, u: UserId, p: Pref)
    requires WorldInv(w) && p in w.seekers.Jobs(u)
    ensures TimeoutMeans(w, SearchTimeout(w, u, p), u, p)
  {
    hide TimeoutMeans, Booked, Refund, DequeueSeeker;
    assert u in w.db.users;
    WorldParts(w);
    hide WorldInv;
    TimeoutFilters(w.db, w.seekers, u, p);
    TimedOutEntries(w, u, p, SearchTimeout(w, u, p).seekers);
    RefundBooks(w.db, u, ROOM_SEARCH_COST, RoomTimeoutRefund);
    hide Entry, Seekers.Filter, SeekersInv;
    TimeoutAnswer(w, SearchTimeout(w, u, p), u, p);
  }

  /** The parts of a timeout put together. */
  lemma TimeoutAnswer(w: World, w': World, u: UserId, p: Pref)
    requires SeekersInv(w.db, w.seekers) && w' == w.(db := w'.db, seekers := w'.seekers)
    requires forall v :: w'.seekers.Filter(v) == if v == u && w.seekers.Filter(u) == Some(p) then None else w.seekers.Filter(v)
    requires forall q, v ::
               Entry(w'.seekers, q, v) == if v == u && q == p && w.seekers.Filter(u).Some? then None else Entry(w.seekers, q, v)
    requires forall v :: w'.seekers.Jobs(v) == if v == u then w.seekers.Jobs(u) - multiset{p} else w.seekers.Jobs(v)
    requires if w.seekers.Filter(u).Some? then Booked(w.db, w'.db, u, ROOM_SEARCH_COST, RoomTimeoutRefund) else w'.db == w.db
    ensures TimeoutMeans(w, w', u, p)
  {
    SeekerAt(w.db, w.seekers, u);
    assert forall q :: w.seekers.Filter(u) != Some(q) ==> Entry(w.seekers, q, u) == None;
    hide SeekersInv, Entry, Seekers.Filter, Seekers.Jobs, Booked, Seekers.Bucket;
  }

  lemma TimedOutEntries(w: World, u: UserId, p: Pref, s': Seekers)
    requires s' == SearchTimeout(w, u, p).seekers
    ensures forall q, v ::
              Entry(s', q, v) == if v == u && q == p && w.seekers.Filter(u).Some? then None else Entry(w.seekers, q, v)
    ensures forall v :: s'.Jobs(v) == if v == u then w.seekers.Jobs(u) - multiset{p} else w.seekers.Jobs(v)
  {
    hide Seekers.Filter, Refund;
    var s1 := w.seekers.(jobs := w.seekers.jobs[u := w.seekers.Jobs(u) - multiset{p}]);
    assert forall q :: s1.Bucket(q) == w.seekers.Bucket(q);
    if w.seekers.Filter(u).Some? {
      DequeuedEntries(s1, u, p, s');
    }
  }

  lemma DequeuedEntries(s: Seekers, u: UserId, p: Pref, s': Seekers)
    requires s' == DequeueSeeker(s, u, p)
    ensures s'.jobs == s.jobs && forall q, v :: Entry(s', q, v) == if v == u && q == p then None else Entry(s, q, v)
  {
  }

  /** A restart forgets all jobs and nothing else. */
  ghost predicate RestartMeans(w: World, w': World) {
    && w' == w.(seekers := w'.seekers)
    && forall u :: w'.seekers.Jobs(u) == multiset{} && forall p :: Entry(w'.seekers, p, u) == Entry(w.seekers, p, u)
  }

  lemma RestartOutcome(w: World)
    ensures RestartMeans(w, Restart(w))
  {
  }

  /** The sweep first throws out exactly the entries no younger than the cutoff, jobs and all
      else staying, and then fills the rooms listed. */
  ghost predicate SweepMeans(w: World, w': World, cutoff: real) {
    exists w1 :: Purged(w, w1, cutoff) && Fills(w1, w')
  }

  ghost predicate Purged(w: World, w1: World, cutoff: real) {
    && w1 == w.(seekers := w1.seekers) && w1.seekers.jobs == w.seekers.jobs
    && forall p, u :: Entry(w1.seekers, p, u)
         == if Entry(w.seekers, p, u).Some? && Entry(w.seekers, p, u).value <= cutoff then None else Entry(w.seekers, p, u)
  }

  lemma SweepOutcome(w: World, cutoff: real, rooms: seq<RoomId>)
    requires WorldInv(w)
    ensures SweepMeans(w, Sweep(w, cutoff, rooms), cutoff)
    ensures ListsSpareRooms(w.db, rooms) ==> NoMissedRoom(Sweep(w, cutoff, rooms))
  {
    SweepRest(w, cutoff, rooms);
    var w1 := w.(seekers := PurgeSeekers(w.seekers, cutoff));
    PurgedKeeps(w, cutoff);
    PurgedEntries(w.seekers, cutoff);
    hide WorldInv, FillAll, Fills, PurgeSeekers, Entry;
    FillAllOutcome(w1, rooms);
    assert Purged(w, w1, cutoff) && Fills(w1, Sweep(w, cutoff, rooms));
  }

  lemma SweepRest(w: World, cutoff: real, rooms: seq<RoomId>)
    requires WorldInv(w)
    ensures ListsSpareRooms(w.db, rooms) ==> NoMissedRoom(Sweep(w, cutoff, rooms))
  {
    hide WorldInv, NoMissedRoom, Sweep;
    if ListsSpareRooms(w.db, rooms) { SweepRestores(w, cutoff, rooms); }
  }

  lemma PurgedEntries(s: Seekers, cutoff: real)
    ensures var s' := PurgeSeekers(s, cutoff);
            && s'.jobs == s.jobs
            && forall p, u :: Entry(s', p, u)
                 == if Entry(s, p, u).Some? && Entry(s, p, u).value <= cutoff then None else Entry(s, p, u)
  {
  }
}
