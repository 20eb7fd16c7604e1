/** What becomes of a room over a run: it keeps what it was created with, it is deleted by
    three events only, and once deleted it stays so. */
module RoomEvolution {
  import opened Basics
  import opened Ledger
  import opened Database
  import opened RoomInvariant
  import opened RoomTransactions
  import opened MatchQueue
  import opened World
  import opened RoomHandlers
  import opened WorldInvariant
  import opened ChatSteps
  import opened RoomSteps
  import opened RoomFlows
  import opened FillOrder
  import opened BotRuns
  import opened NoMissedRooms

  predicate IsDeleted(db: Db, r: RoomId) {
    r in db.rooms && db.rooms[r].status == Deleted
  }

  /** Rooms stay, with their owner, preference, capacity and creation time; those deleted
      since are `gone`. */
  ghost predicate RoomsEvolve(db: Db, db': Db, gone: Option<RoomId>) {
    && (forall r | r in db.rooms :: r in db'.rooms && db'.rooms[r].(status := db.rooms[r].status) == db.rooms[r])
    && (forall r | r in db.rooms :: IsDeleted(db', r) <==> IsDeleted(db, r) || gone == Some(r))
    && (gone.Some? ==> IsDeleted(db', gone.value))
  }

  /** The room an event deletes, with the members a purge offer starts from. */
  function Deleting(w: World, e: Event): Option<Deletion> {
    match e
    case RoomDeleted(u) => (match DeleteRoom(w.db, u).1 case Ok(d) => Some(d) case Err(_) => None)
    case RoomLeft(u) => AutoDeletion(LeaveRoom(w.db, u).1)
    case MemberKicked(u, target) => AutoDeletion(KickMember(w.db, u, target).1)
    case _ => None
  }

  function AutoDeletion(res: Result<Departure>): Option<Deletion> {
    match res
    case Ok(d) => if d.autoDeleted then Some(Deletion(d.room, d.remaining)) else None
    case Err(_) => None
  }

  function GoneRoom(d: Option<Deletion>): Option<RoomId> {
    if d.Some? then Some(d.value.room) else None
  }

  lemma SameTable(db: Db, db': Db)
    requires db'.rooms == db.rooms
    ensures RoomsEvolve(db, db', None)
  {
  }

  lemma OneRoomEvolves(db: Db, db': Db, r: RoomId)
    requires OnlyRoom(db, db', r) && !IsDeleted(db, r)
    ensures RoomsEvolve(db, db', if IsDeleted(db', r) then Some(r) else None)
  {
  }

  lemma FillTable(w: World, r: RoomId)
    requires WorldInv(w)
    ensures Fill(w, r).db.rooms == w.db.rooms
  {
    if IsOpen(w.db, r) { FillLoopAdmits(w, r, CompatibleBuckets(w.db.rooms[r].pref)); }
  }

  lemma {:induction false} FillAllTable(w: World, rooms: seq<RoomId>)
    requires WorldInv(w)
    ensures FillAll(w, rooms).db.rooms == w.db.rooms
    decreases |rooms|
  {
    hide WorldInv, Fill;
    if rooms != [] {
      FillTable(w, rooms[0]);
      FillKeeps(w, rooms[0]);
      FillAllTable(Fill(w, rooms[0]), rooms[1..]);
    }
  }

  lemma AfterDepartureEvolves(w: World, u: UserId, r: RoomId)
    requires WorldInv(w) && ActiveRoom(w.db, u) == Some(r) && r in w.db.rooms && w.db.rooms[r].owner != u
    ensures var (db, d) := Depart(w.db, r, u);
            RoomsEvolve(w.db, AfterDeparture(w, u, db, d).db, GoneRoom(AutoDeletion(Ok(d))))
  {
    hide Count, Sum, NoMissedMatch, PairsInv, RoomInv, LedgerInv, Depart, SeekersInv, MirrorInv, SearchFees,
      RequestsInv, Fill;
    var (db, d) := Depart(w.db, r, u);
    DepartKeeps(w.db, r, u);
    DepartedWorld(w, u, r);
    assert !IsDeleted(w.db, r) by { LiveRoom(w.db, u, r); }
    OneRoomEvolves(w.db, db, r);
    if !d.autoDeleted { FillTable(w.(db := db, mirror := ClearMirror(w.mirror, {u})), r); }
  }

  lemma LiveRoom(db: Db, u: UserId, r: RoomId)
    requires RoomInv(db) && ActiveRoom(db, u) == Some(r)
    ensures r in db.rooms && !IsDeleted(db, r)
  {
    ActiveIffMember(db, u, r);
  }

  lemma SearchTable(w: World, e: Event)
    requires e.RoomSearched? || e.RoomSearchCancelled? || e.RoomSearchTimesOut? || e.BotRestarts?
    ensures Apply(w, e).db.rooms == w.db.rooms
  {
    hide DequeueSeeker, EnqueueSeeker, CannotStartRoomFlow, RedisConflict;
  }

  lemma CreateFlowEvolves(w: World, u: UserId, pref: Pref, capacity: int, now: real)
    requires WorldInv(w)
    ensures RoomsEvolve(w.db, CreateFlow(w, u, pref, capacity, now).db, None)
  {
    hide Count, Sum, RoomInv, LedgerInv, NoMissedMatch, PairsInv, MirrorInv, CreateRoom, Fill;
    SameTable(w.db, w.db);
    if !CannotStartRoomFlow(w, u) {
      var (db, res) := CreateRoom(w.db, u, pref, capacity, None, now);
      CreateKeeps(w.db, u, pref, capacity, None, now);
      CreatedWorld(w, u, pref, capacity, now);
      if res.Ok? { FillTable(w.(db := db, mirror := w.mirror.(room := w.mirror.room[u := res.value])), res.value); }
    }
  }

  lemma DepartureEvolves(w: World, e: Event)
    requires WorldInv(w) && (e.RoomLeft? || e.MemberKicked?)
    ensures RoomsEvolve(w.db, Apply(w, e).db, GoneRoom(Deleting(w, e)))
  {
    hide Count, Sum, NoMissedMatch, PairsInv, RoomInv, LedgerInv, SeekersInv, MirrorInv, SearchFees, RequestsInv,
      RoomsEvolve, AfterDeparture, Depart;
    SameTable(w.db, w.db);
    if e.RoomLeft? {
      LeaveKeeps(w.db, e.u);
      var res := LeaveRoom(w.db, e.u).1;
      if res.Ok? { AfterDepartureEvolves(w, e.u, res.value.room); }
    } else {
      KickKeeps(w.db, e.u, e.target);
      var res := KickMember(w.db, e.u, e.target).1;
      if res.Ok? { AfterDepartureEvolves(w, e.target, res.value.room); }
    }
  }

  lemma ModerationEvolves(w: World, e: Event)
    requires WorldInv(w) && (e.RoomDeleted? || e.RoomSwitched? || e.UserBanned?)
    ensures RoomsEvolve(w.db, Apply(w, e).db, GoneRoom(Deleting(w, e)))
  {
    hide Count, Sum, NoMissedMatch, PairsInv, RoomInv, LedgerInv, SeekersInv, MirrorInv, SearchFees, RequestsInv,
      OnlyRoom, RoomsEvolve, DeleteRoom, SetRoomOpen, RemoveBanned;
    SameTable(w.db, w.db);
    match e {
      case RoomDeleted(u) =>
        DeleteKeeps(w.db, u);
        var (db, res) := DeleteRoom(w.db, u);
        if res.Ok? {
          LiveRoom(w.db, u, res.value.room);
          StillThere(w.db, db, res.value.room);
          OneRoomEvolves(w.db, db, res.value.room);
        }
      case RoomSwitched(u, isOpen) =>
        SetOpenKeeps(w.db, u, isOpen);
        var (db, res) := SetRoomOpen(w.db, u, isOpen);
        if res.Ok? {
          LiveRoom(w.db, u, res.value.room);
          OneRoomEvolves(w.db, db, res.value.room);
        }
      case UserBanned(u) =>
        BanKeeps(w.db, u);
        var (db, out) := RemoveBanned(w.db, u);
        if out.Some? {
          LiveRoom(w.db, u, ActiveRoom(w.db, u).value);
          OneRoomEvolves(w.db, db, ActiveRoom(w.db, u).value);
        }
    }
  }

  lemma StillThere(db: Db, db': Db, r: RoomId)
    requires OnlyRoom(db, db', r)
    ensures r in db'.rooms
  {
  }

  /** No event but these three deletes a room, and none brings one back. */
  lemma StepEvolves(w: World, e: Event)
    requires WorldInv(w)
    ensures RoomsEvolve(w.db, Apply(w, e).db, GoneRoom(Deleting(w, e)))
  {
    hide WorldInv, RoomsEvolve, Apply, CreateFlow, Sweep;
    if e.RoomLeft? || e.MemberKicked? {
      DepartureEvolves(w, e);
    } else if e.RoomDeleted? || e.RoomSwitched? || e.UserBanned? {
      ModerationEvolves(w, e);
    } else if e.RoomCreated? {
      CreateFlowEvolves(w, e.u, e.filter, e.capacity, e.now);
      assert Apply(w, e) == CreateFlow(w, e.u, e.filter, e.capacity, e.now) by { ApplyCreateOrSweep(w, e); }
    } else if e.QueueSwept? {
      SweepTable(w, e.cutoff, e.rooms);
      assert Apply(w, e) == Sweep(w, e.cutoff, e.rooms) by { ApplyCreateOrSweep(w, e); }
      SameTable(w.db, Apply(w, e).db);
    } else if Aside(e) {
      AsideUntouched(w, e);
      SameTable(w.db, Apply(w, e).db);
    } else {
      SearchTable(w, e);
      SameTable(w.db, Apply(w, e).db);
    }
  }

  lemma ApplyCreateOrSweep(w: World, e: Event)
    ensures e.RoomCreated? ==> Apply(w, e) == CreateFlow(w, e.u, e.filter, e.capacity, e.now)
    ensures e.QueueSwept? ==> Apply(w, e) == Sweep(w, e.cutoff, e.rooms)
  {
    hide CreateFlow, Sweep;
  }

  lemma SweepTable(w: World, cutoff: real, rooms: seq<RoomId>)
    requires WorldInv(w)
    ensures Sweep(w, cutoff, rooms).db.rooms == w.db.rooms
  {
    hide WorldInv, FillAll;
    PurgedKeeps(w, cutoff);
    FillAllTable(w.(seekers := PurgeSeekers(w.seekers, cutoff)), rooms);
  }

  /** A deleted room stays deleted and empty, whatever happens. */
  lemma {:induction false} DeletedForever(w: World, es: seq<Event>, r: RoomId)
    requires WorldInv(w) && AllowedRun(w, es) && IsDeleted(w.db, r)
    ensures IsDeleted(Run(w, es).db, r) && MembersOf(Run(w, es).db, r) == {}
    decreases |es|
  {
    if es == [] {
      assert RoomOk(w.db, r);
    } else {
      hide WorldInv, Apply, Allowed, Deleting;
      StepKeeps(w, es[0]);
      StepEvolves(w, es[0]);
      DeletedForever(Apply(w, es[0]), es[1..], r);
    }
  }
}
