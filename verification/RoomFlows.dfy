/** Searching for rooms, creating and leaving them, moderation and bans keep the world
    invariant. */
module RoomFlows {
  import opened Basics
  import opened SortedSets
  import opened Ledger
  import opened Database
  import opened RoomInvariant
  import opened RoomTransactions
  import opened MatchQueue
  import opened World
  import opened RoomHandlers
  import opened WorldInvariant
  import opened ChatSteps
  import opened RoomSteps

  // ---------------------------------------------------------------- searching

  lemma EnqueueFilters(s: Seekers, u: UserId, p: Pref, now: real)
    requires s.Filter(u) == None
    ensures var s' := EnqueueSeeker(s, u, p, now);
            && (forall v :: s'.Filter(v) == if v == u then Some(p) else s.Filter(v))
            && (forall q, v :: v in s'.Bucket(q) <==> v in s.Bucket(q) || (v == u && q == p))
            && s'.jobs == s.jobs[u := s.Jobs(u) + multiset{p}]
  {
    FilterIff(s, u);
  }

  /** A paid search not yet answered: one charge more than all refunds, jobs and waits need. */
  ghost predicate PaidAhead(l: seq<Txn>, s: Seekers, u: UserId) {
    Count(l, u, RoomRefund) + Max(|s.Jobs(u)|, One(s.Filter(u).Some?)) + 1 <= Count(l, u, RoomFee)
  }

  lemma EnqueueKeeps(db: Db, s: Seekers, u: UserId, p: Pref, now: real)
    requires SeekersInv(db, s) && u in db.users && s.Filter(u) == None && PaidAhead(db.ledger, s, u)
    ensures SeekersInv(db, EnqueueSeeker(s, u, p, now))
  {
    EnqueueFilters(s, u, p, now);
    EnqueuedSeekers(db, s, u, p, EnqueueSeeker(s, u, p, now));
  }

  lemma EnqueuedSeekers(db: Db, s: Seekers, u: UserId, p: Pref, s': Seekers)
    requires SeekersInv(db, s) && u in db.users && s.Filter(u) == None && PaidAhead(db.ledger, s, u)
    requires forall v :: s'.Filter(v) == if v == u then Some(p) else s.Filter(v)
    requires forall q, v :: v in s'.Bucket(q) <==> v in s.Bucket(q) || (v == u && q == p)
    requires s'.jobs == s.jobs[u := s.Jobs(u) + multiset{p}]
    ensures SeekersInv(db, s')
  {
    FilterIff(s, u);
    hide Count, Seekers.Filter, Seekers.Bucket;
    assert forall v :: s'.Jobs(v) == if v == u then s.Jobs(u) + multiset{p} else s.Jobs(v);
    forall v ensures RoomFeeOk(db.ledger, s', v) { assert RoomFeeOk(db.ledger, s, v); }
    hide RoomFeeOk;
    forall q, v ensures Placed(db.users.Keys, s', q, v) { assert Placed(db.users.Keys, s, q, v); }
  }

  lemma PaidSeekers(db: Db, db': Db, s: Seekers, u: UserId)
    requires SeekersInv(db, s) && db'.users.Keys == db.users.Keys && Counted(db, db', u, RoomFee)
    ensures SeekersInv(db', s) && PaidAhead(db'.ledger, s, u)
  {
    hide Count;
    forall v ensures RoomFeeOk(db'.ledger, s, v) { assert RoomFeeOk(db.ledger, s, v); }
    assert RoomFeeOk(db.ledger, s, u);
  }

  lemma SearchCharge(w: World, u: UserId)
    requires WorldInv(w)
    ensures var d := Deduct(w.db, u, ROOM_SEARCH_COST, RoomSearch);
            d.Some? ==> Counted(w.db, d.value, u, RoomFee) && SameRooms(w.db, d.value) && u in w.db.users
  {
    hide Count, Sum, RoomInv, LedgerInv, NoMissedMatch, PairsInv, SeekersInv, MirrorInv, SearchFees, RequestsInv, Exclusive;
    DeductKeeps(w.db, u, ROOM_SEARCH_COST, RoomSearch);
  }

  lemma PayRoomSearch(w: World, u: UserId)
    requires WorldInv(w)
    ensures var d := Deduct(w.db, u, ROOM_SEARCH_COST, RoomSearch);
            d.Some? ==> WorldInv(w.(db := d.value)) && SameRooms(w.db, d.value) && u in w.db.users
  {
    hide Count, Sum, RoomInv, LedgerInv, NoMissedMatch, PairsInv, SeekersInv;
    DeductKeeps(w.db, u, ROOM_SEARCH_COST, RoomSearch);
    var d := Deduct(w.db, u, ROOM_SEARCH_COST, RoomSearch);
    if d.Some? {
      PaidSeekers(w.db, d.value, w.seekers, u);
      assert MirrorInv(d.value, w.mirror);
      RoomSide(w, d.value, w.seekers, w.mirror);
    }
  }

  /** A join that the transaction lets through, whatever the user has done since it was let
      into the flow. */
  lemma JoinedKeeps(w: World, u: UserId, r: RoomId)
    requires WorldInv(w)
    ensures var (db, res) := JoinRoom(w.db, u, r, RedisConflict(w, u));
            res.Ok? ==> WorldInv(w.(db := db, mirror := w.mirror.(room := w.mirror.room[u := r])))
  {
    hide Count, Sum, RoomInv, LedgerInv, NoMissedMatch, PairsInv, SeekersInv, MirrorInv;
    var (db, res) := JoinRoom(w.db, u, r, RedisConflict(w, u));
    JoinKeeps(w.db, u, r, RedisConflict(w, u));
    if res.Ok? {
      JoinedRooms(w.db, db, u, r);
      JoinedMirror(w.db, db, w.mirror, u, r);
      SeekersFrame(w.db, db, w.seekers);
      RoomSide(w, db, w.seekers, w.mirror.(room := w.mirror.room[u := r]));
    }
  }

  lemma TryJoinRoomKeeps(w: World, u: UserId, filter: Pref, pick: Option<RoomId>, now: real)
    requires WorldInv(w) && u in w.db.users && !CannotStartRoomFlow(w, u) && PaidAhead(w.db.ledger, w.seekers, u)
    ensures WorldInv(TryJoinRoom(w, u, filter, pick, now))
  {
    hide Count, Sum, RoomInv, LedgerInv, NoMissedMatch, PairsInv, SeekersInv, MirrorInv, PaidAhead;
    EnqueueKeeps(w.db, w.seekers, u, filter, now);
    EnqueueFilters(w.seekers, u, filter, now);
    RoomSide(w, w.db, EnqueueSeeker(w.seekers, u, filter, now), w.mirror);
    if pick.Some? { JoinedKeeps(w, u, pick.value); }
  }

  lemma SearchRoomKeeps(w: World, u: UserId, filter: Pref, pick: Option<RoomId>, now: real)
    requires WorldInv(w)
    ensures WorldInv(SearchRoom(w, u, filter, pick, now))
  {
    hide WorldInv, TryJoinRoom, SeekersInv, Counted, PaidAhead, Deduct;
    if !CannotStartRoomFlow(w, u) {
      PayRoomSearch(w, u);
      var d := Deduct(w.db, u, ROOM_SEARCH_COST, RoomSearch);
      if d.Some? {
        SearchCharge(w, u);
        WorldParts(w);
        PaidSeekers(w.db, d.value, w.seekers, u);
        TryJoinRoomKeeps(w.(db := d.value), u, filter, pick, now);
      }
    }
  }

  lemma CancelSearchKeeps(w: World, u: UserId)
    requires WorldInv(w)
    ensures WorldInv(CancelSearch(w, u)) && CancelSearch(w, u).seekers.Filter(u) == None
  {
    hide Count, Sum, RoomInv, LedgerInv, NoMissedMatch, PairsInv, SeekersInv;
    if w.seekers.Filter(u).Some? {
      var p := w.seekers.Filter(u).value;
      FilterIff(w.seekers, u);
      SeekerIsUser(w.db, w.seekers, u, p);
      RoomRefundStep(w.db, u, RoomCancelRefund);
      var db := Refund(w.db, u, ROOM_SEARCH_COST, RoomCancelRefund);
      ReleaseKeeps(w.db, db, w.seekers, u, p);
      DequeueFilters(w.seekers, u, p);
      var s := CancelJobs(DequeueSeeker(w.seekers, u, p), u);
      assert forall v :: s.Filter(v) == DequeueSeeker(w.seekers, u, p).Filter(v);
      RoomSide(w, db, s, w.mirror);
    }
  }

  /** A timeout job may find its user waiting in another bucket than the one it was
      scheduled for. It pays back all the same, and still no coin is minted: another
      job of that user, for another charge, is pending. */
  lemma TimeoutSeekers(db: Db, db': Db, s: Seekers, u: UserId, p: Pref)
    requires SeekersInv(db, s) && p in s.Jobs(u) && db.users.Keys <= db'.users.Keys
    requires SameCount(db.ledger, db'.ledger, RoomFee)
    requires forall v :: Count(db'.ledger, v, RoomRefund) == Count(db.ledger, v, RoomRefund) + One(v == u && s.Filter(u).Some?)
    ensures var s1 := s.(jobs := s.jobs[u := s.Jobs(u) - multiset{p}]);
            SeekersInv(db', if s.Filter(u).None? then s1 else DequeueSeeker(s1, u, p))
  {
    var s1 := s.(jobs := s.jobs[u := s.Jobs(u) - multiset{p}]);
    var s2 := if s.Filter(u).None? then s1 else DequeueSeeker(s1, u, p);
    TimeoutFilters(db, s, u, p);
    TimedOutSeekers(db, db', s, u, p, s2);
  }

  lemma TimeoutFilters(db: Db, s: Seekers, u: UserId, p: Pref)
    requires SeekersInv(db, s)
    ensures var s1 := s.(jobs := s.jobs[u := s.Jobs(u) - multiset{p}]);
            var s2 := if s.Filter(u).None? then s1 else DequeueSeeker(s1, u, p);
            && (forall v :: s2.Filter(v) == if v == u && s.Filter(u) == Some(p) then None else s.Filter(v))
            && (forall q, v :: v in s2.Bucket(q) <==> v in s.Bucket(q) && !(v == u && s.Filter(u) == Some(p)))
            && s2.jobs == s1.jobs
  {
    SeekerAt(db, s, u);
    var s1 := s.(jobs := s.jobs[u := s.Jobs(u) - multiset{p}]);
    assert forall q :: s1.Bucket(q) == s.Bucket(q);
    assert forall v :: s1.Filter(v) == s.Filter(v);
    if s.Filter(u) == Some(p) {
      assert OnlyIn(s1, u, p);
      DequeueFilters(s1, u, p);
    } else if s.Filter(u).Some? {
      assert u !in s.Bucket(p);
      assert s1.Bucket(p) - {u} == s1.Bucket(p);
      assert DequeueSeeker(s1, u, p) == s1;
    }
  }

  lemma OneJobLess(jobs: multiset<Pref>, p: Pref, f: Option<Pref>)
    requires p in jobs && (f.Some? ==> f.value in jobs)
    ensures |jobs - multiset{p}| == |jobs| - 1
    ensures f.Some? && f.value != p ==> f.value in jobs - multiset{p} && |jobs - multiset{p}| >= 1
  {
  }

  ghost predicate TimedOut(s: Seekers, s': Seekers, u: UserId, p: Pref) {
    && (forall v :: s'.Filter(v) == if v == u && s.Filter(u) == Some(p) then None else s.Filter(v))
    && (forall q, v :: v in s'.Bucket(q) <==> v in s.Bucket(q) && !(v == u && s.Filter(u) == Some(p)))
    && s'.jobs == s.jobs[u := s.Jobs(u) - multiset{p}]
  }

  lemma TimedOutSeekers(db: Db, db': Db, s: Seekers, u: UserId, p: Pref, s': Seekers)
    requires SeekersInv(db, s) && p in s.Jobs(u) && db.users.Keys <= db'.users.Keys
    requires SameCount(db.ledger, db'.ledger, RoomFee)
    requires forall v :: Count(db'.ledger, v, RoomRefund) == Count(db.ledger, v, RoomRefund) + One(v == u && s.Filter(u).Some?)
    requires TimedOut(s, s', u, p)
    ensures SeekersInv(db', s')
  {
    TimedOutShape(db, s, u, p, s');
    MoreUsers(db.users.Keys, db'.users.Keys, s');
    SeekerAt(db, s, u);
    OneJobLess(s.Jobs(u), p, s.Filter(u));
    hide Count, Seekers.Filter, Seekers.Bucket;
    forall v ensures RoomFeeOk(db'.ledger, s', v) {
      assert RoomFeeOk(db.ledger, s, v);
      assert s'.Jobs(v) == if v == u then s.Jobs(u) - multiset{p} else s.Jobs(v);
    }
  }

  lemma TimedOutShape(db: Db, s: Seekers, u: UserId, p: Pref, s': Seekers)
    requires SeekersInv(db, s) && p in s.Jobs(u) && TimedOut(s, s', u, p)
    ensures SeekersShape(db.users.Keys, s')
  {
    SeekerAt(db, s, u);
    OneJobLess(s.Jobs(u), p, s.Filter(u));
    hide RoomFees, Seekers.Filter, Seekers.Bucket;
    forall q, v ensures Placed(db.users.Keys, s', q, v) {
      assert Placed(db.users.Keys, s, q, v);
      assert s'.Jobs(v) == if v == u then s.Jobs(u) - multiset{p} else s.Jobs(v);
    }
  }

  lemma SearchTimeoutKeeps(w: World, u: UserId, p: Pref)
    requires WorldInv(w) && p in w.seekers.Jobs(u)
    ensures WorldInv(SearchTimeout(w, u, p))
  {
    hide Count, Sum, RoomInv, LedgerInv, NoMissedMatch, PairsInv, RoomFees;
    var w' := SearchTimeout(w, u, p);
    assert u in w.db.users;
    RoomRefundStep(w.db, u, RoomTimeoutRefund);
    TimeoutSeekers(w.db, w'.db, w.seekers, u, p);
    forall v | w'.seekers.Filter(v).Some? ensures w.seekers.Filter(v).Some? {
      FilterIff(w'.seekers, v);
      FilterIff(w.seekers, v);
    }
    RoomSide(w, w'.db, w'.seekers, w.mirror);
  }

  /** Seekers dropped without their jobs, or jobs dropped without their seekers. */
  lemma FewerSeekersKeep(w: World, s: Seekers)
    requires WorldInv(w)
    requires forall p, u :: u in s.Bucket(p) ==> u in w.seekers.Bucket(p)
    requires s.jobs == w.seekers.jobs || s.jobs == map[]
    ensures WorldInv(w.(seekers := s))
  {
    hide Count, Sum, RoomInv, LedgerInv, NoMissedMatch, PairsInv;
    forall v ensures s.Filter(v).Some? ==> s.Filter(v) == w.seekers.Filter(v) {
      FilterIff(s, v);
      SeekerAt(w.db, w.seekers, v);
    }
    FewerSeekersInv(w.db, w.seekers, s);
    RoomSide(w, w.db, s, w.mirror);
  }

  lemma FewerSeekersInv(db: Db, s: Seekers, s': Seekers)
    requires SeekersInv(db, s)
    requires forall p, u :: u in s'.Bucket(p) ==> u in s.Bucket(p)
    requires forall v :: s'.Filter(v).Some? ==> s'.Filter(v) == s.Filter(v)
    requires s'.jobs == s.jobs || s'.jobs == map[]
    ensures SeekersInv(db, s')
  {
    forall q, v ensures Placed(db.users.Keys, s', q, v) {
      if v in s'.Bucket(q) {
        FilterIff(s', v);
        assert Placed(db.users.Keys, s, q, v);
        assert s'.Jobs(v) == s.Jobs(v) || s'.Jobs(v) == multiset{};
      }
    }
    hide Count, Seekers.Filter, Seekers.Bucket;
    forall v ensures RoomFeeOk(db.ledger, s', v) { assert RoomFeeOk(db.ledger, s, v); }
  }

  lemma RestartKeeps(w: World)
    requires WorldInv(w)
    ensures WorldInv(Restart(w))
  {
    FewerSeekersKeep(w, Restart(w).seekers);
  }

  lemma SweepKeeps(w: World, cutoff: real, rooms: seq<RoomId>)
    requires WorldInv(w)
    ensures WorldInv(Sweep(w, cutoff, rooms))
  {
    hide WorldInv;
    var s := PurgeSeekers(w.seekers, cutoff);
    forall p, u ensures u in s.Bucket(p) ==> u in w.seekers.Bucket(p) {}
    FewerSeekersKeep(w, s);
    FillAllKeeps(w.(seekers := s), rooms);
  }

  // ---------------------------------------------------------------- membership

  /** The world in which the trigger for a new room runs. */
  lemma CreatedWorld(w: World, u: UserId, pref: Pref, capacity: int, now: real)
    requires WorldInv(w) && !OnChatSide(w, u)
    ensures var (db, res) := CreateRoom(w.db, u, pref, capacity, None, now);
            res.Ok? ==> WorldInv(w.(db := db, mirror := w.mirror.(room := w.mirror.room[u := res.value])))
  {
    hide Count, Sum, RoomInv, LedgerInv, NoMissedMatch, PairsInv, MirrorInv, CreateRoom;
    var (db, res) := CreateRoom(w.db, u, pref, capacity, None, now);
    CreateKeeps(w.db, u, pref, capacity, None, now);
    if res.Ok? {
      JoinedMirror(w.db, db, w.mirror, u, res.value);
      SeekersFrame(w.db, db, w.seekers);
      RoomSide(w, db, w.seekers, w.mirror.(room := w.mirror.room[u := res.value]));
    }
  }

  lemma CreateFlowKeeps(w: World, u: UserId, pref: Pref, capacity: int, now: real)
    requires WorldInv(w)
    ensures WorldInv(CreateFlow(w, u, pref, capacity, now))
  {
    hide WorldInv, CreateRoom, Fill;
    if !CannotStartRoomFlow(w, u) {
      CreatedWorld(w, u, pref, capacity, now);
      var (db, res) := CreateRoom(w.db, u, pref, capacity, None, now);
      if res.Ok? { FillKeeps(w.(db := db, mirror := w.mirror.(room := w.mirror.room[u := res.value])), res.value); }
    }
  }

  /** A room changed whose departed members are cleared from the mirror. */
  lemma RoomChangeKeeps(w: World, db: Db, r: RoomId, cleared: set<UserId>)
    requires WorldInv(w) && DbInv(db) && OnlyRoom(w.db, db, r)
    requires forall u | IsMember(db, r, u) :: IsMember(w.db, r, u)
    requires forall u | IsMember(w.db, r, u) && !IsMember(db, r, u) :: u in cleared
    ensures WorldInv(w.(db := db, mirror := ClearMirror(w.mirror, cleared)))
  {
    hide Count, Sum, NoMissedMatch, PairsInv, LedgerInv;
    forall u ensures ActiveRoom(db, u) == if IsMember(w.db, r, u) && !IsMember(db, r, u) then None else ActiveRoom(w.db, u) {
      ActiveIffMember(w.db, u, r);
    }
    SeekersFrame(w.db, db, w.seekers);
    assert MirrorInv(db, ClearMirror(w.mirror, cleared));
    RoomSide(w, db, w.seekers, ClearMirror(w.mirror, cleared));
  }

  lemma ClearMirrorKeeps(w: World, us: set<UserId>)
    requires WorldInv(w)
    ensures WorldInv(w.(mirror := ClearMirror(w.mirror, us)))
  {
    hide DbInv, SeekersInv, RequestsInv, PairsInv, NoMissedMatch, Exclusive, SearchFees;
    MirrorStepKeeps(w, ClearMirror(w.mirror, us));
  }

  /** The world in which the trigger for a free place runs, or that a dissolved room leaves. */
  lemma DepartedWorld(w: World, u: UserId, r: RoomId)
    requires WorldInv(w) && ActiveRoom(w.db, u) == Some(r) && r in w.db.rooms && w.db.rooms[r].owner != u
    ensures var (db, d) := Depart(w.db, r, u);
            var cleared := if d.autoDeleted then {u} + d.remaining else {u};
            d.room == r && WorldInv(w.(db := db, mirror := ClearMirror(w.mirror, cleared)))
  {
    hide Count, Sum, NoMissedMatch, PairsInv, RoomInv, LedgerInv, Depart, SeekersInv, MirrorInv, SearchFees, RequestsInv;
    var (db, d) := Depart(w.db, r, u);
    DepartKeeps(w.db, r, u);
    RoomChangeKeeps(w, db, r, if d.autoDeleted then {u} + d.remaining else {u});
    assert d.room == r by { DepartRoom(w.db, r, u); }
  }

  lemma AfterDepartureKeeps(w: World, u: UserId, r: RoomId)
    requires WorldInv(w) && ActiveRoom(w.db, u) == Some(r) && r in w.db.rooms && w.db.rooms[r].owner != u
    ensures var (db, d) := Depart(w.db, r, u);
            WorldInv(AfterDeparture(w, u, db, d))
  {
    hide WorldInv, Depart, Fill;
    var (db, d) := Depart(w.db, r, u);
    DepartedWorld(w, u, r);
    if !d.autoDeleted { FillKeeps(w.(db := db, mirror := ClearMirror(w.mirror, {u})), r); }
  }

  lemma DepartRoom(db: Db, r: RoomId, u: UserId)
    requires r in db.rooms && u in db.users
    ensures Depart(db, r, u).1.room == r
  {
  }

  lemma LeaveFlowKeeps(w: World, u: UserId)
    requires WorldInv(w)
    ensures WorldInv(LeaveFlow(w, u))
  {
    hide Count, Sum, NoMissedMatch, PairsInv, RoomInv, LedgerInv, AfterDeparture, Depart, SeekersInv, MirrorInv,
      SearchFees, RequestsInv;
    LeaveKeeps(w.db, u);
    ClearMirrorKeeps(w, {u});
    var res := LeaveRoom(w.db, u).1;
    if res.Ok? { AfterDepartureKeeps(w, u, res.value.room); }
  }

  lemma KickFlowKeeps(w: World, owner: UserId, target: UserId)
    requires WorldInv(w)
    ensures WorldInv(KickFlow(w, owner, target))
  {
    hide Count, Sum, NoMissedMatch, PairsInv, RoomInv, LedgerInv, AfterDeparture, Depart, SeekersInv, MirrorInv,
      SearchFees, RequestsInv;
    KickKeeps(w.db, owner, target);
    var res := KickMember(w.db, owner, target).1;
    if res.Ok? { AfterDepartureKeeps(w, target, res.value.room); }
  }

  lemma DeleteFlowKeeps(w: World, u: UserId)
    requires WorldInv(w)
    ensures WorldInv(DeleteFlow(w, u))
  {
    hide Count, Sum, NoMissedMatch, PairsInv, RoomInv, LedgerInv, Dissolve, SeekersInv, MirrorInv, SearchFees, RequestsInv;
    DeleteKeeps(w.db, u);
    ClearMirrorKeeps(w, {u});
    var (db, res) := DeleteRoom(w.db, u);
    if res.Ok? { RoomChangeKeeps(w, db, res.value.room, res.value.members); }
  }

  lemma SetOpenFlowKeeps(w: World, u: UserId, isOpen: bool)
    requires WorldInv(w)
    ensures WorldInv(SetOpenFlow(w, u, isOpen))
  {
    hide Count, Sum, NoMissedMatch, PairsInv, LedgerInv, SeekersInv, SearchFees, RequestsInv;
    SetOpenKeeps(w.db, u, isOpen);
    ClearMirrorKeeps(w, {u});
    var (db, res) := SetRoomOpen(w.db, u, isOpen);
    if res.Ok? {
      var r := res.value.room;
      forall v | v in res.value.members ensures ActiveRoom(db, v).Some? { ActiveIffMember(w.db, v, r); }
      SeekersFrame(w.db, db, w.seekers);
      RoomSide(w, db, w.seekers, SetOpenFlow(w, u, isOpen).mirror);
    }
  }

  lemma EnforceBanKeeps(w: World, u: UserId)
    requires WorldInv(w)
    ensures WorldInv(EnforceBan(w, u))
  {
    hide Count, Sum, NoMissedMatch, RoomInv, LedgerInv, RemoveBanned, SeekersInv, RequestsInv, MirrorInv;
    var p := ClearPartner(w.pairs, u);
    ClearPartnerKeeps(w.queue, w.pairs, u);
    ChatSide(w, w.db, w.queue, p);
    var w1 := w.(pairs := p);
    BanKeeps(w.db, u);
    var (db, out) := RemoveBanned(w.db, u);
    if out.Some? { RoomChangeKeeps(w1, db, ActiveRoom(w.db, u).value, {u}); }
  }

  // ---------------------------------------------------------------- the mirror

  lemma HealMirrorKeeps(w: World, u: UserId, r: RoomId)
    requires WorldInv(w)
    ensures WorldInv(HealMirror(w, u, r))
  {
    ClearMirrorKeeps(w, {u});
  }

  lemma MirrorStepKeeps(w: World, m: Mirror)
    requires WorldInv(w) && MirrorInv(w.db, m)
    ensures WorldInv(w.(mirror := m))
  {
    hide Count, Sum, NoMissedMatch, PairsInv, RoomInv, LedgerInv, SeekersInv, RequestsInv;
    var w' := w.(mirror := m);
    forall u ensures !(OnChatSide(w', u) && OnRoomSide(w', u)) { assert !(OnChatSide(w, u) && OnRoomSide(w, u)); }
  }

  lemma SyncMirrorKeeps(w: World)
    requires WorldInv(w)
    ensures WorldInv(SyncMirror(w))
  {
    hide DbInv, SeekersInv, RequestsInv, PairsInv, NoMissedMatch, Exclusive, SearchFees;
    MirrorStepKeeps(w, SyncMirror(w).mirror);
  }

  lemma RoomUiKeeps(w: World, u: UserId)
    requires WorldInv(w)
    ensures WorldInv(ExitRoomUi(w, u)) && WorldInv(ShowRoom(w, u))
  {
    hide DbInv, SeekersInv, RequestsInv, PairsInv, NoMissedMatch, Exclusive, SearchFees;
    MirrorStepKeeps(w, ExitRoomUi(w, u).mirror);
    MirrorStepKeeps(w, ShowRoom(w, u).mirror);
  }

  /** From whatever mirror a crash left behind: a message of `u` in the room the mirror
      names, then one run of the sync job, and the mirror tells the truth about `u`. */
  lemma MirrorHeals(w: World, u: UserId)
    requires RoomInv(w.db)
    ensures var w1 := if u in w.mirror.room then HealMirror(w, u, w.mirror.room[u]) else w;
            Get(SyncMirror(w1).mirror.room, u) == ActiveRoom(w.db, u)
  {
    if u in w.mirror.room {
      ActiveIffMember(w.db, u, w.mirror.room[u]);
    }
  }
}
