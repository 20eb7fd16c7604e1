/** What becomes of the money paid for a room search: over every run, each charge is matched
    by a refund, by a room joined, by a seeker still waiting, or by a seeker dropped. */
module SearchFates {
  import opened Basics
  import opened SortedSets
  import opened Ledger
  import opened Database
  import opened RoomInvariant
  import opened RoomTransactions
  import opened MatchQueue
  import opened World
  import opened ChatHandlers
  import opened RoomHandlers
  import opened RequestHandlers
  import opened WorldInvariant
  import opened ChatSteps
  import opened RoomSteps
  import opened RoomFlows
  import opened FillOrder
  import opened FillExactly
  import opened BotRuns
  import opened RoomMoney
  import opened NoMissedRooms
  import opened RoomEvolution

  predicate Waits(w: World, u: UserId) {
    w.seekers.Filter(u).Some?
  }

  predicate InRoom(w: World, u: UserId) {
    ActiveRoom(w.db, u).Some?
  }

  function Paid(w: World, u: UserId): nat {
    Count(w.db.ledger, u, RoomFee)
  }

  function PaidBack(w: World, u: UserId): nat {
    Count(w.db.ledger, u, RoomRefund)
  }

  // ---------------------------------------------------------------- filling rooms

  /** Seen from one user: it joins or waits on, and leaves the queue only for a room. */
  predicate Served(w: World, w': World, u: UserId) {
    && (InRoom(w, u) ==> InRoom(w', u))
    && (Waits(w', u) ==> Waits(w, u))
    && (!InRoom(w, u) && InRoom(w', u) ==> Waits(w, u) && !Waits(w', u))
    && (Waits(w, u) && !Waits(w', u) ==> InRoom(w', u))
    && Paid(w', u) == Paid(w, u) && PaidBack(w', u) == PaidBack(w, u)
  }

  lemma FillServes(w: World, r: RoomId, u: UserId)
    requires WorldInv(w)
    ensures Served(w, Fill(w, r), u)
  {
    hide Count, Sum, NoMissedMatch, PairsInv, LedgerInv, SeekersInv, MirrorInv, SearchFees, RequestsInv, FillLoop, Exclusive;
    if IsOpen(w.db, r) {
      var buckets := CompatibleBuckets(w.db.rooms[r].pref);
      FillLoopAdmits(w, r, buckets);
      FillLoopKeeps(w, r, buckets);
      hide Seekers.Filter;
      var w' := FillLoop(w, r, buckets);
      ActiveIffMember(w'.db, u, r);
      ActiveIffMember(w.db, u, r);
      assert InRoom(w', u) ==> InRoom(w, u) || IsMember(w'.db, r, u);
    }
  }

  lemma {:induction false} FillAllServes(w: World, rooms: seq<RoomId>, u: UserId)
    requires WorldInv(w)
    ensures Served(w, FillAll(w, rooms), u)
    decreases |rooms|
  {
    hide WorldInv, Fill, Count, Seekers.Filter;
    if rooms != [] {
      FillServes(w, rooms[0], u);
      FillKeeps(w, rooms[0]);
      FillAllServes(Fill(w, rooms[0]), rooms[1..], u);
    }
  }

  // ---------------------------------------------------------------- one event

  /** The event takes `u` out of its room before it fills the free place. */
  predicate Departs(e: Event, u: UserId) {
    (e.RoomLeft? && e.u == u) || (e.MemberKicked? && e.target == u)
  }

  /** A paid search ends in a room. */
  predicate Joins(w: World, e: Event, u: UserId) {
    var w' := Apply(w, e);
    && (Waits(w, u) || (e.RoomSearched? && e.u == u)) && !Waits(w', u)
    && InRoom(w', u) && (!InRoom(w, u) || Departs(e, u))
  }

  /** A seeker leaves the queue with neither room nor refund. */
  predicate Drops(w: World, e: Event, u: UserId) {
    && Waits(w, u) && !Waits(Apply(w, e), u) && !Joins(w, e, u)
    && !((e.RoomSearchCancelled? || e.RoomSearchTimesOut?) && e.u == u)
  }

  /** A job left over from an earlier search pays back while its user waits elsewhere. */
  predicate PaysLate(w: World, e: Event, u: UserId) {
    e.RoomSearchTimesOut? && e.u == u && Waits(w, u) && w.seekers.Filter(u) != Some(e.filter)
  }

  /** The entry is as old as the sweep throws out. */
  ghost predicate Stale(w: World, e: Event, u: UserId) {
    e.QueueSwept? && exists p :: Entry(w.seekers, p, u).Some? && Entry(w.seekers, p, u).value <= e.cutoff
  }

  /** The books of one event, seen from one user. */
  ghost predicate Balances(w: World, e: Event, u: UserId) {
    var w' := Apply(w, e);
    && Paid(w', u) + One(Waits(w, u)) + One(PaysLate(w, e, u)) + PaidBack(w, u)
       == Paid(w, u) + PaidBack(w', u) + One(Waits(w', u)) + One(Joins(w, e, u)) + One(Drops(w, e, u))
    && (Drops(w, e, u) ==> InRoom(w, u) || Stale(w, e, u))
  }

  /** Nothing about room searches happened. */
  lemma Uneventful(w: World, e: Event, u: UserId)
    requires NoRoomMoney(w.db, Apply(w, e).db) && Waits(Apply(w, e), u) == Waits(w, u)
    requires !e.RoomSearched? && !e.RoomSearchTimesOut?
    ensures Balances(w, e, u)
  {
    hide Count, Apply, Seekers.Filter;
  }

  lemma AsideBalances(w: World, e: Event, u: UserId)
    requires Aside(e)
    ensures Balances(w, e, u)
  {
    AsideUntouched(w, e);
    assert NoRoomMoney(w.db, Apply(w, e).db) by {
      if ChatEvent(e) { ChatMoney(w, e); } else if CoinEvent(e) { CoinMoney(w, e); } else { MirrorMoney(w, e); }
    }
    hide Apply, Seekers.Filter, Count;
    Uneventful(w, e, u);
  }

  lemma MirrorMoney(w: World, e: Event)
    requires Aside(e) && !ChatEvent(e) && !CoinEvent(e)
    ensures Apply(w, e).db == w.db
  {
  }

  /** After a step that moved no room money and left the queue alone, the trigger runs. */
  lemma ThenServed(w: World, w1: World, e: Event, u: UserId)
    requires NoRoomMoney(w.db, w1.db) && Waits(w1, u) == Waits(w, u) && Served(w1, Apply(w, e), u)
    requires InRoom(w1, u) == InRoom(w, u) || (Departs(e, u) && InRoom(w, u))
    requires !e.RoomSearched? && !e.RoomSearchTimesOut? && !e.RoomSearchCancelled?
    ensures Balances(w, e, u)
  {
    hide Count, Apply, Seekers.Filter;
  }

  lemma CreateBalances(w: World, e: Event, u: UserId)
    requires WorldInv(w) && e.RoomCreated?
    ensures Balances(w, e, u)
  {
    hide Count, Sum, RoomInv, LedgerInv, NoMissedMatch, PairsInv, MirrorInv, SeekersInv, RequestsInv, CreateRoom,
      Fill, Seekers.Filter, Exclusive, Balances;
    var (db, res) := CreateRoom(w.db, e.u, e.filter, e.capacity, RedisConflict(w, e.u), e.now);
    CreateKeeps(w.db, e.u, e.filter, e.capacity, RedisConflict(w, e.u), e.now);
    if CannotStartRoomFlow(w, e.u) || res.Err? {
      assert Apply(w, e) == w;
      Uneventful(w, e, u);
    } else {
      CreatedWorld(w, e.u, e.filter, e.capacity, e.now);
      var w1 := w.(db := db, mirror := w.mirror.(room := w.mirror.room[e.u := res.value]));
      FillServes(w1, res.value, u);
      assert Apply(w, e) == Fill(w1, res.value);
      CreatorBalances(w, w1, e, u);
    }
  }

  lemma CreatorBalances(w: World, w1: World, e: Event, u: UserId)
    requires e.RoomCreated? && Served(w1, Apply(w, e), u) && NoRoomMoney(w.db, w1.db)
    requires w1.seekers == w.seekers && !Waits(w, e.u)
    requires u != e.u ==> InRoom(w1, u) == InRoom(w, u)
    ensures Balances(w, e, u)
  {
    hide Count, Apply, Seekers.Filter;
  }

  lemma DepartureBalances(w: World, e: Event, u: UserId)
    requires WorldInv(w) && (e.RoomLeft? || e.MemberKicked?)
    ensures Balances(w, e, u)
  {
    hide Count, Sum, NoMissedMatch, PairsInv, RoomInv, LedgerInv, SeekersInv, MirrorInv, SearchFees, RequestsInv,
      AfterDeparture, Depart, Balances, Seekers.Filter;
    var gone := if e.RoomLeft? then e.u else e.target;
    var res := if e.RoomLeft? then LeaveRoom(w.db, e.u).1 else KickMember(w.db, e.u, e.target).1;
    LeaveKeeps(w.db, e.u);
    if e.MemberKicked? { KickKeeps(w.db, e.u, e.target); }
    if res.Ok? { AfterDepartureServes(w, gone, res.value.room, u); }
    if res.Err? || res.value.autoDeleted {
      Uneventful(w, e, u);
    } else {
      var w1 := w.(db := Depart(w.db, res.value.room, gone).0);
      ThenServed(w, w1, e, u);
    }
  }

  lemma AfterDepartureServes(w: World, gone: UserId, r: RoomId, u: UserId)
    requires WorldInv(w) && ActiveRoom(w.db, gone) == Some(r) && r in w.db.rooms && w.db.rooms[r].owner != gone
    ensures var (db, d) := Depart(w.db, r, gone);
            var w1 := w.(db := db);
            && NoRoomMoney(w.db, db)
            && (if d.autoDeleted then AfterDeparture(w, gone, db, d).seekers == w.seekers && AfterDeparture(w, gone, db, d).db == db
                else Served(w1, AfterDeparture(w, gone, db, d), u) && (InRoom(w1, u) == InRoom(w, u) || (u == gone && InRoom(w, u))))
  {
    hide Count, Sum, NoMissedMatch, PairsInv, RoomInv, LedgerInv, SeekersInv, MirrorInv, SearchFees, RequestsInv,
      Depart, Fill, Seekers.Filter;
    var (db, d) := Depart(w.db, r, gone);
    DepartKeeps(w.db, r, gone);
    DepartedWorld(w, gone, r);
    ActiveIffMember(w.db, u, r);
    if !d.autoDeleted {
      assert InRoom(w.(db := db), u) == InRoom(w, u) || (u == gone && InRoom(w, u));
      FillServes(w.(db := db, mirror := ClearMirror(w.mirror, {gone})), r, u);
    }
  }

  /** The books of one user across a search that goes ahead in `w1`, where it is paid. */
  lemma TriedBalances(w1: World, v: UserId, filter: Pref, pick: Option<RoomId>, now: real, u: UserId)
    requires RoomInv(w1.db) && !CannotStartRoomFlow(w1, v)
    ensures var w' := TryJoinRoom(w1, v, filter, pick, now);
            && w'.db.ledger == w1.db.ledger
            && (u != v ==> Waits(w', u) == Waits(w1, u) && InRoom(w', u) == InRoom(w1, u))
            && !Waits(w1, v) && (Waits(w', v) <==> !(InRoom(w', v) && !InRoom(w1, v)))
  {
    hide RoomInv, JoinRoom, EnqueueSeeker;
    EnqueueFilters(w1.seekers, v, filter, now);
    assert RedisConflict(w1, v) == None;
    var w' := TryJoinRoom(w1, v, filter, pick, now);
    if pick.Some? {
      JoinedAlone(w1.db, v, pick.value, u);
      var (db, res) := JoinRoom(w1.db, v, pick.value, None);
      if res.Ok? {
        assert w'.db == db && w'.seekers == w1.seekers;
      } else {
        assert w'.db == w1.db;
        assert w'.seekers == EnqueueSeeker(w1.seekers, v, filter, now);
      }
    }
    hide Seekers.Filter;
  }

  lemma SearchingBalances(w: World, e: Event, u: UserId)
    requires WorldInv(w) && e.RoomSearched?
    ensures Balances(w, e, u)
  {
    hide Sum, Count, WorldInv, TryJoinRoom, Deduct, CannotStartRoomFlow, Seekers.Filter;
    var paid := Deduct(w.db, e.u, ROOM_SEARCH_COST, RoomSearch);
    if !CannotStartRoomFlow(w, e.u) && paid.Some? {
      PayRoomSearch(w, e.u);
      SearchCharge(w, e.u);
      assert CannotStartRoomFlow(w.(db := paid.value), e.u) == CannotStartRoomFlow(w, e.u) by {
        ChargedElsewhere(w, paid.value, e.u);
      }
      assert RoomInv(paid.value) by { WorldParts(w.(db := paid.value)); }
      TriedBalances(w.(db := paid.value), e.u, e.filter, e.pick, e.now, u);
    }
  }

  lemma ChargedElsewhere(w: World, db: Db, u: UserId)
    ensures CannotStartRoomFlow(w.(db := db), u) == CannotStartRoomFlow(w, u)
  {
  }

  /** A join moves no money and changes nobody else's room. */
  lemma JoinedAlone(db: Db, joiner: UserId, r: RoomId, u: UserId)
    requires RoomInv(db)
    ensures var (db', res) := JoinRoom(db, joiner, r, None);
            && db'.ledger == db.ledger
            && (u != joiner ==> ActiveRoom(db', u) == ActiveRoom(db, u))
            && (res.Ok? ==> ActiveRoom(db', joiner).Some? && ActiveRoom(db, joiner) == None)
            && (res.Err? ==> db' == db && res.error != In1to1 && res.error != InQueue)
  {
  }

  lemma RefundCounts(db: Db, u: UserId, reason: Reason)
    requires u in db.users && KindOf(reason) == RoomRefund
    ensures var db' := Refund(db, u, ROOM_SEARCH_COST, reason);
            && SameCount(db.ledger, db'.ledger, RoomFee)
            && (forall v :: Count(db'.ledger, v, RoomRefund) == Count(db.ledger, v, RoomRefund) + One(v == u))
            && (forall v :: ActiveRoom(db', v) == ActiveRoom(db, v))
  {
    Append(db.ledger, Txn(u, ROOM_SEARCH_COST, reason));
    hide Count, Sum;
  }

  /** The books of a search given up, told of the handler's result `w1`. */
  lemma EndedBalances(w: World, w1: World, e: Event, u: UserId)
    requires (e.RoomSearchCancelled? || e.RoomSearchTimesOut?) && w1 == Apply(w, e)
    requires forall v | v != e.u :: Waits(w1, v) == Waits(w, v)
    requires e.RoomSearchCancelled? ==> !Waits(w1, e.u)
    requires e.RoomSearchTimesOut? && Waits(w, e.u) ==> (Waits(w1, e.u) <==> w.seekers.Filter(e.u) != Some(e.filter))
    requires !Waits(w, e.u) ==> !Waits(w1, e.u)
    requires InRoom(w1, u) == InRoom(w, u) && Paid(w1, u) == Paid(w, u)
    requires PaidBack(w1, u) == PaidBack(w, u) + One(u == e.u && Waits(w, e.u))
    ensures Balances(w, e, u)
  {
    hide Apply, Seekers.Filter, Count, Stale;
  }

  lemma CancellingBalances(w: World, e: Event, u: UserId)
    requires WorldInv(w) && Allowed(w, e) && e.RoomSearchCancelled?
    ensures Balances(w, e, u)
  {
    hide WorldInv, Count, Balances, Refund, DequeueSeeker, CancelJobs;
    var f := w.seekers.Filter(e.u);
    var w1 := CancelSearch(w, e.u);
    if f.Some? {
      WorldParts(w);
      SeekerAt(w.db, w.seekers, e.u);
      ReleasedFilters(w, e.u, f.value);
      RefundCounts(w.db, e.u, RoomCancelRefund);
    }
    hide Seekers.Filter;
    assert w1 == Apply(w, e);
    EndedBalances(w, w1, e, u);
  }

  lemma TimingOutBalances(w: World, e: Event, u: UserId)
    requires WorldInv(w) && Allowed(w, e) && e.RoomSearchTimesOut?
    ensures Balances(w, e, u)
  {
    hide WorldInv, Count, Balances, Refund, DequeueSeeker;
    var w1 := SearchTimeout(w, e.u, e.filter);
    WorldParts(w);
    SeekerAt(w.db, w.seekers, e.u);
    TimeoutFilters(w.db, w.seekers, e.u, e.filter);
    if w.seekers.Filter(e.u).Some? { RefundCounts(w.db, e.u, RoomTimeoutRefund); }
    hide Seekers.Filter, SeekersInv;
    assert w1 == Apply(w, e);
    EndedBalances(w, w1, e, u);
  }

  /** Whoever is thrown out as stale had an old entry; whoever stays keeps its place. */
  lemma PurgedSeeker(w: World, e: Event, u: UserId)
    requires e.QueueSwept?
    ensures var w1 := w.(seekers := PurgeSeekers(w.seekers, e.cutoff));
            && (Waits(w1, u) ==> Waits(w, u))
            && (Waits(w, u) && !Waits(w1, u) ==> Stale(w, e, u))
  {
    var s := w.seekers;
    if s.Filter(u).Some? {
      var p := s.Filter(u).value;
      assert Entry(s, p, u).Some?;
      if PurgeSeekers(s, e.cutoff).Filter(u).None? { assert Entry(s, p, u).value <= e.cutoff; }
    }
  }

  /** A sweep, seen from one user. */
  lemma SweepServes(w: World, cutoff: real, rooms: seq<RoomId>, u: UserId)
    requires WorldInv(w)
    ensures Served(w.(seekers := PurgeSeekers(w.seekers, cutoff)), Sweep(w, cutoff, rooms), u)
  {
    hide WorldInv, Count, FillAll, PurgeSeekers, Served;
    PurgedKeeps(w, cutoff);
    FillAllServes(w.(seekers := PurgeSeekers(w.seekers, cutoff)), rooms, u);
  }

  lemma SweepingBalances(w: World, e: Event, u: UserId)
    requires WorldInv(w) && e.QueueSwept?
    ensures Balances(w, e, u)
  {
    hide WorldInv, Count, FillAll, PurgeSeekers, Seekers.Filter, Stale;
    PurgedKeeps(w, e.cutoff);
    PurgedSeeker(w, e, u);
    var w1 := w.(seekers := PurgeSeekers(w.seekers, e.cutoff));
    FillAllServes(w1, e.rooms, u);
    assert Apply(w, e) == FillAll(w1, e.rooms);
  }

  lemma DeletionMoney(w: World, o: UserId)
    ensures DeleteFlow(w, o).db.ledger == w.db.ledger && DeleteFlow(w, o).seekers == w.seekers
  {
  }

  lemma SwitchMoney(w: World, o: UserId, isOpen: bool)
    ensures SetOpenFlow(w, o, isOpen).db.ledger == w.db.ledger && SetOpenFlow(w, o, isOpen).seekers == w.seekers
  {
  }

  lemma BanMoney(w: World, b: UserId)
    ensures EnforceBan(w, b).db.ledger == w.db.ledger && EnforceBan(w, b).seekers == w.seekers
  {
  }

  lemma RestartMoney(w: World, u: UserId)
    ensures Restart(w).db == w.db && Restart(w).seekers.Filter(u) == w.seekers.Filter(u)
  {
  }

  lemma ModerationMoney(w: World, e: Event, u: UserId)
    requires e.RoomDeleted? || e.RoomSwitched? || e.UserBanned? || e.BotRestarts?
    ensures Apply(w, e).db.ledger == w.db.ledger && Waits(Apply(w, e), u) == Waits(w, u)
  {
    hide DeleteFlow, SetOpenFlow, EnforceBan, Restart, Seekers.Filter, StartChat, RunSearch, StopChat, NextChat,
      QueueTimeout, PurgeQueue, Message, SearchRoom, CancelSearch, SearchTimeout, Sweep, CreateFlow, LeaveFlow, KickFlow,
      HealMirror, SyncMirror, ExitRoomUi, ShowRoom, SendRequest, AcceptRequest, RejectRequest, ExpireRequests,
      Refund, Deduct, AddUser, GrantReferral;
    match e {
      case RoomDeleted(o) => DeletionMoney(w, o);
      case RoomSwitched(o, isOpen) => SwitchMoney(w, o, isOpen);
      case UserBanned(b) => BanMoney(w, b);
      case BotRestarts => RestartMoney(w, u);
    }
  }

  lemma ModerationBalances(w: World, e: Event, u: UserId)
    requires WorldInv(w) && (e.RoomDeleted? || e.RoomSwitched? || e.UserBanned? || e.BotRestarts?)
    ensures Balances(w, e, u)
  {
    hide WorldInv, Apply, Balances, Waits;
    ModerationMoney(w, e, u);
    Uneventful(w, e, u);
  }

  // ---------------------------------------------------------------- who is dropped

  /** The trigger for room `r` takes a seeker off the queue who is in a room already. */
  predicate DroppedByFill(w: World, r: RoomId, u: UserId) {
    InRoom(w, u) && Taken(w, r, u)
  }

  predicate DroppedByFills(w: World, rooms: seq<RoomId>, u: UserId)
    decreases |rooms|
  {
    rooms != [] && (DroppedByFill(w, rooms[0], u) || DroppedByFills(Fill(w, rooms[0]), rooms[1..], u))
  }

  /** Whoever takes `v` out of a room of three or more: `v` itself, or the owner. */
  predicate MakesPlace(w: World, e: Event, v: UserId, r: RoomId) {
    && Departs(e, v) && ActiveRoom(w.db, v) == Some(r) && r in w.db.rooms && |MembersOf(w.db, r)| > 2
    && (if e.RoomLeft? then w.db.rooms[r].owner != v
        else w.db.rooms[r].owner == e.u && e.u != v && ActiveRoom(w.db, e.u) == Some(r))
  }

  /** When an event drops a seeker, told from the state before it: a sweep that finds its
      entry too old, or a trigger whose turn comes to a seeker who is in a room already. */
  ghost predicate DroppedBy(w: World, e: Event, u: UserId) {
    match e
    case QueueSwept(cutoff, rooms) =>
      Stale(w, e, u) || DroppedByFills(w.(seekers := PurgeSeekers(w.seekers, cutoff)), rooms, u)
    case RoomCreated(v, pref, capacity, _) =>
      CanCreate(w, v) && InRoom(w, u) && InLine(w.seekers, pref, u) && |FreeAhead(w, pref, u)| < Clamp(capacity)
    case RoomLeft(v) => exists r :: MakesPlace(w, e, v, r) && DroppedByFill(Without(w, v, r), r, u)
    case MemberKicked(_, v) => exists r :: MakesPlace(w, e, v, r) && DroppedByFill(Without(w, v, r), r, u)
    case _ => false
  }

  /** One trigger drops a seeker just when the seeker is in a room and its turn comes. */
  lemma FillDropsExactly(w: World, r: RoomId, u: UserId)
    requires WorldInv(w)
    ensures DroppedByFill(w, r, u) <==> Waits(w, u) && InRoom(w, u) && !Waits(Fill(w, r), u)
  {
    hide WorldInv, Fill, FreeAhead, Seekers.Filter;
    if Waits(w, u) { FillTakesExactly(w, r, u); }
  }

  lemma {:induction false} FillAllDropsExactly(w: World, rooms: seq<RoomId>, u: UserId)
    requires WorldInv(w)
    ensures DroppedByFills(w, rooms, u) <==> Waits(w, u) && InRoom(w, u) && !Waits(FillAll(w, rooms), u)
    decreases |rooms|
  {
    hide WorldInv, Fill, DroppedByFill, Waits, Count;
    if rooms != [] {
      var w1 := Fill(w, rooms[0]);
      FillKeeps(w, rooms[0]);
      FillServes(w, rooms[0], u);
      FillDropsExactly(w, rooms[0], u);
      FillAllServes(w1, rooms[1..], u);
      FillAllDropsExactly(w1, rooms[1..], u);
    }
  }

  /** The purge throws out exactly the seekers with an old entry. */
  lemma StaleExactly(w: World, e: Event, u: UserId)
    requires WorldInv(w) && e.QueueSwept?
    ensures Stale(w, e, u) <==> Waits(w, u) && !Waits(w.(seekers := PurgeSeekers(w.seekers, e.cutoff)), u)
  {
    WorldParts(w);
    hide WorldInv;
    SeekerAt(w.db, w.seekers, u);
    var s1 := PurgeSeekers(w.seekers, e.cutoff);
    FilterIff(s1, u);
    forall p ensures u in s1.Bucket(p) <==> Entry(w.seekers, p, u).Some? && Entry(w.seekers, p, u).value > e.cutoff {}
    hide PurgeSeekers, Seekers.Filter;
    if Waits(w, u) {
      var p := w.seekers.Filter(u).value;
      assert Entry(w.seekers, p, u).Some? && forall q | Entry(w.seekers, q, u).Some? :: q == p;
    }
  }

  lemma SweepDropsExactly(w: World, e: Event, u: UserId)
    requires WorldInv(w) && e.QueueSwept?
    ensures Drops(w, e, u) <==> DroppedBy(w, e, u)
  {
    hide WorldInv, Count, FillAll, PurgeSeekers, Stale, DroppedByFills, Seekers.Filter;
    PurgedKeeps(w, e.cutoff);
    StaleExactly(w, e, u);
    PurgedSeeker(w, e, u);
    var w1 := w.(seekers := PurgeSeekers(w.seekers, e.cutoff));
    FillAllServes(w1, e.rooms, u);
    FillAllDropsExactly(w1, e.rooms, u);
    assert Apply(w, e) == FillAll(w1, e.rooms);
  }

  /** A new room has room for one seeker less than its capacity. */
  lemma FoundedRoom(db: Db, v: UserId, pref: Pref, capacity: int, now: real)
    requires RoomInv(db)
    ensures var (db1, res) := CreateRoom(db, v, pref, capacity, None, now);
            && (res.Ok? <==> ActiveRoom(db, v) == None && CanPay(db, v, ROOM_CREATE_COST))
            && (res.Ok? ==>
                  && IsOpen(db1, res.value) && db1.rooms[res.value].pref == pref && Spare(db1, res.value) == Clamp(capacity) - 1
                  && db1.users.Keys == db.users.Keys && forall u | u != v :: ActiveRoom(db1, u) == ActiveRoom(db, u))
  {
    assert db.nextId in db.rooms ==> RoomOk(db, db.nextId);
    assert MembersOf(db, db.nextId) == {} by {
      forall u ensures u !in MembersOf(db, db.nextId) { assert IsMember(db, db.nextId, u) ==> db.nextId in db.rooms; }
    }
  }

  lemma CreateDropsExactly(w: World, e: Event, u: UserId)
    requires WorldInv(w) && e.RoomCreated?
    ensures Drops(w, e, u) <==> DroppedBy(w, e, u)
  {
    hide Count, Sum, LedgerInv, NoMissedMatch, PairsInv, MirrorInv, SeekersInv, RequestsInv, CreateRoom, RoomInv,
      Fill, Seekers.Filter, Exclusive, FreeAhead;
    var (db, res) := CreateRoom(w.db, e.u, e.filter, e.capacity, RedisConflict(w, e.u), e.now);
    if !CannotStartRoomFlow(w, e.u) {
      FoundedRoom(w.db, e.u, e.filter, e.capacity, e.now);
      if res.Ok? {
        CreatedWorld(w, e.u, e.filter, e.capacity, e.now);
        var w1 := w.(db := db, mirror := w.mirror.(room := w.mirror.room[e.u := res.value]));
        SameLine(w, w1, e.filter, u);
        FillServes(w1, res.value, u);
        FillDropsExactly(w1, res.value, u);
        assert Apply(w, e) == Fill(w1, res.value);
      }
    }
  }

  lemma AfterDepartureDrops(w: World, v: UserId, r: RoomId, u: UserId)
    requires WorldInv(w) && ActiveRoom(w.db, v) == Some(r) && r in w.db.rooms && w.db.rooms[r].owner != v
    ensures var (db, d) := Depart(w.db, r, v);
            var w' := AfterDeparture(w, v, db, d);
            Waits(w, u) && !Waits(w', u) && !(InRoom(w', u) && (!InRoom(w, u) || u == v)) <==>
            |MembersOf(w.db, r)| > 2 && DroppedByFill(Without(w, v, r), r, u)
  {
    hide Count, Sum, NoMissedMatch, PairsInv, RoomInv, LedgerInv, SeekersInv, MirrorInv, SearchFees, RequestsInv,
      Depart, Fill, Seekers.Filter, FreeAhead, RemoveMember;
    var (db, d) := Depart(w.db, r, v);
    DepartKeeps(w.db, r, v);
    DepartedWorld(w, v, r);
    DepartureTriggers(w, v, r);
    ActiveIffMember(w.db, u, r);
    if !d.autoDeleted {
      var w1 := w.(db := db, mirror := ClearMirror(w.mirror, {v}));
      assert InRoom(w1, u) <==> InRoom(w, u) && u != v by { AfterDepartureServes(w, v, r, u); }
      FillServes(w1, r, u);
      FillDropsExactly(w1, r, u);
      SameLine(w1, Without(w, v, r), w.db.rooms[r].pref, u);
    }
  }

  lemma DepartureDropsExactly(w: World, e: Event, u: UserId)
    requires WorldInv(w) && (e.RoomLeft? || e.MemberKicked?)
    ensures Drops(w, e, u) <==> DroppedBy(w, e, u)
  {
    hide Count, Sum, NoMissedMatch, PairsInv, RoomInv, LedgerInv, SeekersInv, MirrorInv, SearchFees, RequestsInv,
      AfterDeparture, Depart, Seekers.Filter, DroppedByFill, RemoveMember;
    var v := if e.RoomLeft? then e.u else e.target;
    LeaveKeeps(w.db, e.u);
    if e.MemberKicked? { KickKeeps(w.db, e.u, e.target); }
    var res := if e.RoomLeft? then LeaveRoom(w.db, e.u).1 else KickMember(w.db, e.u, e.target).1;
    if res.Ok? {
      AfterDepartureDrops(w, v, res.value.room, u);
    }
  }

  lemma SearchDropsNobody(w: World, e: Event, u: UserId)
    requires WorldInv(w) && e.RoomSearched? && Waits(w, u)
    ensures Waits(Apply(w, e), u)
  {
    hide Sum, Count, WorldInv, TryJoinRoom, Deduct, CannotStartRoomFlow, Seekers.Filter;
    var paid := Deduct(w.db, e.u, ROOM_SEARCH_COST, RoomSearch);
    if !CannotStartRoomFlow(w, e.u) && paid.Some? {
      PayRoomSearch(w, e.u);
      ChargedElsewhere(w, paid.value, e.u);
      assert RoomInv(paid.value) by { WorldParts(w.(db := paid.value)); }
      TriedBalances(w.(db := paid.value), e.u, e.filter, e.pick, e.now, u);
    }
  }

  /** Cancelling and timing out take nobody but their own user off the queue. */
  lemma OwnEndingOnly(w: World, e: Event, u: UserId)
    requires WorldInv(w) && (e.RoomSearchCancelled? || e.RoomSearchTimesOut?) && e.u != u
    ensures Waits(Apply(w, e), u) == Waits(w, u)
  {
    hide WorldInv, Seekers.Filter, DequeueSeeker, Refund;
    WorldParts(w);
    if e.RoomSearchCancelled? {
      var f := w.seekers.Filter(e.u);
      if f.Some? {
        SeekerAt(w.db, w.seekers, e.u);
        ReleasedFilters(w, e.u, f.value);
      }
    } else {
      TimeoutFilters(w.db, w.seekers, e.u, e.filter);
    }
  }

  /** Who is dropped when: an event leaves a seeker with neither room nor refund exactly if
      it finds the seeker's entry too old, or its trigger reaches a seeker who has a room. */
  lemma DropsExactly(w: World, e: Event, u: UserId)
    requires WorldInv(w)
    ensures Drops(w, e, u) <==> DroppedBy(w, e, u)
  {
    hide WorldInv, Apply, Seekers.Filter;
    if e.QueueSwept? { SweepDropsExactly(w, e, u); }
    else if e.RoomCreated? { CreateDropsExactly(w, e, u); }
    else if e.RoomLeft? || e.MemberKicked? { DepartureDropsExactly(w, e, u); }
    else if Aside(e) { AsideUntouched(w, e); }
    else if e.RoomSearched? { if Waits(w, u) { SearchDropsNobody(w, e, u); } }
    else if e.RoomSearchCancelled? || e.RoomSearchTimesOut? { if e.u != u { OwnEndingOnly(w, e, u); } }
    else { ModerationMoney(w, e, u); }
  }

  /** The books balance at every event, and drop a seeker exactly as told. */
  lemma StepBalances(w: World, e: Event, u: UserId)
    requires WorldInv(w) && Allowed(w, e)
    ensures Balances(w, e, u) && (Drops(w, e, u) <==> DroppedBy(w, e, u))
  {
    hide WorldInv, Allowed, Balances, Drops, DroppedBy;
    DropsExactly(w, e, u);
    if Aside(e) { AsideBalances(w, e, u); }
    else if e.RoomSearched? { SearchingBalances(w, e, u); }
    else if e.RoomSearchCancelled? { CancellingBalances(w, e, u); }
    else if e.RoomSearchTimesOut? { TimingOutBalances(w, e, u); }
    else if e.QueueSwept? { SweepingBalances(w, e, u); }
    else if e.RoomCreated? { CreateBalances(w, e, u); }
    else if e.RoomLeft? || e.MemberKicked? { DepartureBalances(w, e, u); }
    else { ModerationBalances(w, e, u); }
  }

  // ---------------------------------------------------------------- whole runs

  /** How often something happened to `u` in a run. */
  function JoinCount(w: World, es: seq<Event>, u: UserId): nat
    decreases |es|
  {
    if es == [] then 0 else One(Joins(w, es[0], u)) + JoinCount(Apply(w, es[0]), es[1..], u)
  }

  function DropCount(w: World, es: seq<Event>, u: UserId): nat
    decreases |es|
  {
    if es == [] then 0 else One(Drops(w, es[0], u)) + DropCount(Apply(w, es[0]), es[1..], u)
  }

  function LateCount(w: World, es: seq<Event>, u: UserId): nat
    decreases |es|
  {
    if es == [] then 0 else One(PaysLate(w, es[0], u)) + LateCount(Apply(w, es[0]), es[1..], u)
  }

  lemma {:induction false} RunBalances(w: World, es: seq<Event>, u: UserId)
    requires WorldInv(w) && AllowedRun(w, es)
    ensures var w' := Run(w, es);
            Paid(w', u) + One(Waits(w, u)) + LateCount(w, es, u) + PaidBack(w, u)
            == Paid(w, u) + PaidBack(w', u) + One(Waits(w', u)) + JoinCount(w, es, u) + DropCount(w, es, u)
    decreases |es|
  {
    hide WorldInv, Apply, Allowed, Joins, Drops, PaysLate, Waits, Count;
    if es != [] {
      StepKeeps(w, es[0]);
      StepBalances(w, es[0], u);
      RunBalances(Apply(w, es[0]), es[1..], u);
    }
  }

  /** Every paid room search ended in a room, was paid back, or is still waiting, except for
      those dropped; and what a leftover job paid back too late is the only other refund. */
  lemma EverySearchIsAccountedFor(es: seq<Event>, u: UserId)
    requires AllowedRun(EMPTY, es)
    ensures var w := Run(EMPTY, es);
            && Paid(w, u) + LateCount(EMPTY, es, u) == PaidBack(w, u) + One(Waits(w, u)) + JoinCount(EMPTY, es, u) + DropCount(EMPTY, es, u)
            && PaidBack(w, u) + One(Waits(w, u)) <= Paid(w, u)
  {
    hide WorldInv, Run, AllowedRun;
    EmptyIsGood();
    RunBalances(EMPTY, es, u);
    EveryReachableStateIsGood(es);
    FeesCovered(Run(EMPTY, es), u);
    assert Paid(EMPTY, u) == PaidBack(EMPTY, u) == 0 && !Waits(EMPTY, u);
  }

  lemma FeesCovered(w: World, u: UserId)
    requires WorldInv(w)
    ensures PaidBack(w, u) + One(Waits(w, u)) <= Paid(w, u)
  {
    hide Count, DbInv, RequestsInv, PairsInv, NoMissedMatch, MirrorInv, Exclusive, SearchFees;
    assert RoomFeeOk(w.db.ledger, w.seekers, u);
  }
}
