/** The handlers of chat rooms keep the world invariant. */
module RoomSteps {
  import opened Basics
  import opened SortedSets
  import opened Ledger
  import opened Database
  import opened RoomInvariant
  import opened RoomTransactions
  import opened MatchQueue
  import opened World
  import opened RoomHandlers
  import opened WorldInvariant
  import opened ChatSteps

  // ---------------------------------------------------------------- frames

  /** No coin moved for a gender search or a chat request, and nobody was lost. */
  ghost predicate RoomCoins(db: Db, db': Db) {
    && DbInv(db') && db.users.Keys <= db'.users.Keys
    && SameCount(db.ledger, db'.ledger, SearchFee) && SameCount(db.ledger, db'.ledger, SearchRefund)
    && SameCount(db.ledger, db'.ledger, RequestFee) && SameCount(db.ledger, db'.ledger, RequestRefund)
  }

  /** A step on the room side: rooms, seekers, the mirror and the coins of room searches. */
  lemma RoomSide(w: World, db: Db, s: Seekers, m: Mirror)
    requires WorldInv(w) && RoomCoins(w.db, db)
    requires SeekersInv(db, s) && MirrorInv(db, m)
    requires forall u | ActiveRoom(db, u).Some? || s.Filter(u).Some? :: OnRoomSide(w, u) || !OnChatSide(w, u)
    ensures WorldInv(w.(db := db, seekers := s, mirror := m))
  {
    hide Count, Sum, NoMissedMatch, PairsInv, DbInv, SeekersInv, MirrorInv, RequestsInv;
    RequestsFrame(w.db.ledger, db.ledger, w.db.users.Keys, db.users.Keys, w.requests);
    assert SearchFees(db.ledger, w.pairs.payer);
  }

  /** The parts of the invariant that speak of one store. */
  lemma WorldParts(w: World)
    requires WorldInv(w)
    ensures DbInv(w.db) && SeekersInv(w.db, w.seekers) && w.requests.pending.Keys == w.requests.store.Keys
  {
  }

  // ---------------------------------------------------------------- seekers

  lemma FilterIff(s: Seekers, u: UserId)
    ensures s.Filter(u).Some? <==> exists p :: u in s.Bucket(p)
    ensures s.Filter(u).Some? ==> u in s.Bucket(s.Filter(u).value)
  {
    if s.Filter(u).Some? { assert u in s.Bucket(s.Filter(u).value); }
    if p :| u in s.Bucket(p) { assert u in s.male || u in s.female || u in s.any; }
  }

  ghost predicate OnlyIn(s: Seekers, u: UserId, p: Pref) {
    forall q :: u in s.Bucket(q) ==> q == p
  }

  lemma DequeueFilters(s: Seekers, u: UserId, p: Pref)
    requires OnlyIn(s, u, p)
    ensures var s' := DequeueSeeker(s, u, p);
            && (forall v :: s'.Filter(v) == if v == u then None else s.Filter(v))
            && (forall q, v :: v in s'.Bucket(q) <==> v in s.Bucket(q) && v != u)
            && s'.jobs == s.jobs
  {
    var s' := DequeueSeeker(s, u, p);
    forall q, v ensures v in s'.Bucket(q) <==> v in s.Bucket(q) && v != u {
      assert v in s.Bucket(q) && v == u ==> q == p;
    }
    forall v ensures s'.Filter(v) == if v == u then None else s.Filter(v) {
      assert v in s'.male <==> v in s'.Bucket(MalePref);
      assert v in s'.female <==> v in s'.Bucket(FemalePref);
      assert v in s'.any <==> v in s'.Bucket(AnyPref);
      assert v in s.Bucket(MalePref) <==> v in s.male;
      assert v in s.Bucket(FemalePref) <==> v in s.female;
      assert v in s.Bucket(AnyPref) <==> v in s.any;
    }
  }

  /** A waiting seeker taken off the queue with all its jobs, paid back at most once. */
  lemma ReleaseKeeps(db: Db, db': Db, s: Seekers, u: UserId, p: Pref)
    requires SeekersInv(db, s) && u in s.Bucket(p) && db.users.Keys <= db'.users.Keys
    requires SameCount(db.ledger, db'.ledger, RoomFee)
    requires forall v :: Count(db'.ledger, v, RoomRefund) <= Count(db.ledger, v, RoomRefund) + One(v == u)
    ensures SeekersInv(db', CancelJobs(DequeueSeeker(s, u, p), u))
  {
    SeekerIsUser(db, s, u, p);
    DequeueFilters(s, u, p);
    var s1 := DequeueSeeker(s, u, p);
    ReleasedSeekers(db, db', s, u, p, CancelJobs(s1, u));
  }

  lemma ReleasedSeekers(db: Db, db': Db, s: Seekers, u: UserId, p: Pref, s': Seekers)
    requires SeekersInv(db, s) && u in s.Bucket(p) && db.users.Keys <= db'.users.Keys
    requires SameCount(db.ledger, db'.ledger, RoomFee)
    requires forall v :: Count(db'.ledger, v, RoomRefund) <= Count(db.ledger, v, RoomRefund) + One(v == u)
    requires forall v :: s'.Filter(v) == if v == u then None else s.Filter(v)
    requires forall q, v :: v in s'.Bucket(q) <==> v in s.Bucket(q) && v != u
    requires s'.jobs == s.jobs - {u}
    ensures SeekersInv(db', s')
  {
    SeekerAt(db, s, u);
    hide Count, Seekers.Filter, Seekers.Bucket;
    assert forall v :: s'.Jobs(v) == if v == u then multiset{} else s.Jobs(v);
    forall v ensures RoomFeeOk(db'.ledger, s', v) { assert RoomFeeOk(db.ledger, s, v); }
    hide RoomFeeOk;
    forall q, v ensures Placed(db'.users.Keys, s', q, v) { assert Placed(db.users.Keys, s, q, v); }
  }

  /** One more ledger entry for a room search. */
  lemma RoomRefundStep(db: Db, u: UserId, reason: Reason)
    requires DbInv(db) && u in db.users && KindOf(reason) == RoomRefund
    ensures var db' := Refund(db, u, ROOM_SEARCH_COST, reason);
            RoomCoins(db, db') && SameRooms(db, db') && Evolves(db, db') && Counted(db, db', u, RoomRefund)
  {
    hide Count, Sum;
    RefundKeeps(db, u, ROOM_SEARCH_COST, reason);
  }

  // ---------------------------------------------------------------- the fill loop

  /** Whatever the injected check answered, the queue of seekers stays in order. */
  lemma SettleKeepsSeekers(w: World, r: RoomId, u: UserId, p: Pref, conflict: Option<Error>)
    requires DbInv(w.db) && SeekersInv(w.db, w.seekers) && u in w.seekers.Bucket(p)
    requires conflict.Some? ==> conflict.value == In1to1 || conflict.value == InQueue
    ensures var (db, res) := JoinRoom(w.db, u, r, conflict);
            var w' := Settle(w, r, u, p, db, res);
            SeekersInv(w'.db, w'.seekers) && RoomCoins(w.db, w'.db)
  {
    hide Count, Sum, RoomInv, LedgerInv, SeekersInv;
    var (db, res) := JoinRoom(w.db, u, r, conflict);
    JoinKeeps(w.db, u, r, conflict);
    SeekerIsUser(w.db, w.seekers, u, p);
    if res.Err? && (res.error == In1to1 || res.error == InQueue) {
      RoomRefundStep(w.db, u, RoomConflictRefund);
      ReleaseKeeps(w.db, Refund(w.db, u, ROOM_SEARCH_COST, RoomConflictRefund), w.seekers, u, p);
    } else {
      assert db.ledger == w.db.ledger;
      ReleaseKeeps(w.db, db, w.seekers, u, p);
    }
  }

  /** The seekers' invariant read at one user. */
  lemma SeekerAt(db: Db, s: Seekers, u: UserId)
    requires SeekersInv(db, s)
    ensures forall p :: u in s.Bucket(p) <==> s.Filter(u) == Some(p)
    ensures s.Filter(u).Some? ==> u in db.users && (s.Jobs(u) != multiset{} ==> s.Filter(u).value in s.Jobs(u))
  {
    FilterIff(s, u);
    forall p ensures u in s.Bucket(p) <==> s.Filter(u) == Some(p) { assert Placed(db.users.Keys, s, p, u); }
    if s.Filter(u).Some? { assert Placed(db.users.Keys, s, s.Filter(u).value, u); }
  }

  lemma SeekerIsUser(db: Db, s: Seekers, u: UserId, p: Pref)
    requires SeekersInv(db, s) && u in s.Bucket(p)
    ensures u in db.users && s.Filter(u) == Some(p) && OnlyIn(s, u, p)
  {
    SeekerAt(db, s, u);
  }

  lemma MoreUsers(users: set<UserId>, more: set<UserId>, s: Seekers)
    requires SeekersShape(users, s) && users <= more
    ensures SeekersShape(more, s)
  {
    hide Seekers.Filter, Seekers.Bucket;
    forall p, u ensures Placed(more, s, p, u) { assert Placed(users, s, p, u); }
  }

  lemma JoinedMirror(db: Db, db': Db, m: Mirror, u: UserId, r: RoomId)
    requires MirrorInv(db, m) && ActiveRoom(db, u) == None
    requires forall v :: ActiveRoom(db', v) == if v == u then Some(r) else ActiveRoom(db, v)
    ensures MirrorInv(db', m.(room := m.room[u := r]))
  {
  }

  lemma JoinedRooms(db: Db, db': Db, u: UserId, r: RoomId)
    requires OnlyRoom(db, db', r) && MembersOf(db', r) == MembersOf(db, r) + {u} && RoomInv(db)
    ensures forall v :: ActiveRoom(db', v) == if v == u then Some(r) else ActiveRoom(db, v)
  {
    forall v ensures ActiveRoom(db', v) == if v == u then Some(r) else ActiveRoom(db, v) { ActiveIffMember(db, v, r); }
  }

  lemma RefusedFor(db: Db, u: UserId, r: RoomId)
    ensures var res := JoinRoom(db, u, r, None).1;
            res.Err? ==> res.error == HasActiveRoom || RoomAtFault(res.error)
  {
  }

  lemma SettleFilters(w: World, r: RoomId, u: UserId, p: Pref, db: Db, res: Result<RoomId>)
    requires SeekersInv(w.db, w.seekers) && u in w.seekers.Bucket(p)
    ensures var s' := Settle(w, r, u, p, db, res).seekers;
            forall v :: s'.Filter(v) == if v == u then None else w.seekers.Filter(v)
  {
    SeekerIsUser(w.db, w.seekers, u, p);
    DequeueFilters(w.seekers, u, p);
    var s1 := DequeueSeeker(w.seekers, u, p);
    assert forall v :: CancelJobs(s1, u).Filter(v) == s1.Filter(v);
  }

  lemma SettleParts(w: World, r: RoomId, u: UserId, p: Pref, db: Db, res: Result<RoomId>)
    requires res.Ok? || !(res.error == In1to1 || res.error == InQueue)
    ensures var w' := Settle(w, r, u, p, db, res);
            w' == w.(db := db, seekers := w'.seekers, mirror := if res.Ok? then w.mirror.(room := w.mirror.room[u := r]) else w.mirror)
  {
  }

  lemma SettleKeeps(w: World, r: RoomId, u: UserId, p: Pref)
    requires WorldInv(w) && u in w.seekers.Bucket(p)
    ensures var (db, res) := JoinRoom(w.db, u, r, RedisConflict(w, u));
            && RedisConflict(w, u) == None
            && (res.Err? ==> res.error == HasActiveRoom || RoomAtFault(res.error))
            && WorldInv(Settle(w, r, u, p, db, res))
  {
    hide Count, Sum, RoomInv, LedgerInv, NoMissedMatch, PairsInv, SeekersInv, RequestsInv, SearchFees, MirrorInv, JoinRoom, Settle,
      Seekers.Bucket;
    SeekerIsUser(w.db, w.seekers, u, p);
    var (db, res) := JoinRoom(w.db, u, r, None);
    assert RedisConflict(w, u) == None by { assert OnRoomSide(w, u); }
    JoinKeeps(w.db, u, r, None);
    RefusedFor(w.db, u, r);
    SettleKeepsSeekers(w, r, u, p, None);
    SettleFilters(w, r, u, p, db, res);
    SettleParts(w, r, u, p, db, res);
    var w' := Settle(w, r, u, p, db, res);
    hide Seekers.Filter, OnlyRoom;
    if res.Ok? {
      JoinedRooms(w.db, db, u, r);
      JoinedMirror(w.db, db, w.mirror, u, r);
    }
    RoomSide(w, w'.db, w'.seekers, w'.mirror);
  }

  lemma {:induction false} FillLoopKeeps(w: World, r: RoomId, buckets: seq<Pref>)
    requires WorldInv(w)
    ensures WorldInv(FillLoop(w, r, buckets))
    decreases QueueSize(w.seekers)
  {
    hide WorldInv, JoinRoom, Settle;
    var peek := PeekOldest(w.seekers, buckets);
    if peek.Some? {
      var (u, p) := peek.value;
      var (db, res) := JoinRoom(w.db, u, r, RedisConflict(w, u));
      if !(res.Err? && RoomAtFault(res.error)) {
        SettleKeeps(w, r, u, p);
        DequeueShrinks(w.seekers, u, p);
        SettleShrinks(w, r, u, p, db, res);
        FillLoopKeeps(Settle(w, r, u, p, db, res), r, buckets);
      }
    }
  }

  lemma SettleShrinks(w: World, r: RoomId, u: UserId, p: Pref, db: Db, res: Result<RoomId>)
    requires u in w.seekers.Bucket(p)
    ensures QueueSize(Settle(w, r, u, p, db, res).seekers) < QueueSize(w.seekers)
  {
    DequeueShrinks(w.seekers, u, p);
  }

  lemma FillKeeps(w: World, r: RoomId)
    requires WorldInv(w)
    ensures WorldInv(Fill(w, r))
  {
    if IsOpen(w.db, r) { FillLoopKeeps(w, r, CompatibleBuckets(w.db.rooms[r].pref)); }
  }

  lemma {:induction false} FillAllKeeps(w: World, rooms: seq<RoomId>)
    requires WorldInv(w)
    ensures WorldInv(FillAll(w, rooms))
    decreases |rooms|
  {
    hide WorldInv, Fill;
    if rooms != [] {
      FillKeeps(w, rooms[0]);
      FillAllKeeps(Fill(w, rooms[0]), rooms[1..]);
    }
  }
}
