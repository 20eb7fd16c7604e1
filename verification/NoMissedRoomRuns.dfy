/** Over whole runs: the sweep restores the absence of missed rooms, every quiet event
    keeps it, and the three remaining events break it exactly when stated. */
module NoMissedRoomRuns {
  import opened Basics
  import opened SortedSets
  import opened Ledger
  import opened Database
  import opened RoomInvariant
  import opened RoomTransactions
  import opened MatchQueue
  import opened World
  import opened RoomHandlers
  import opened WorldInvariant
  import opened ChatSteps
  import opened RoomSteps
  import opened RoomFlows
  import opened FillOrder
  import opened BotRuns
  import opened NoMissedRooms

  // ---------------------------------------------------------------- searching for a room

  /** The search is not turned away and can be paid for. */
  predicate SearchGoesAhead(w: World, u: UserId) {
    !CannotStartRoomFlow(w, u) && CanPay(w.db, u, ROOM_SEARCH_COST)
  }

  /** Joining takes a place away; waiting is harmless when no room suits. */
  lemma TryJoinRoomQuiet(w: World, u: UserId, filter: Pref, pick: Option<RoomId>, now: real)
    requires WorldInv(w) && NoMissedRoom(w) && u in w.db.users && !CannotStartRoomFlow(w, u)
    requires IsSearchResult(w.db, filter, pick) && (pick.Some? ==> ActiveRoom(w.db, u) == None)
    ensures NoMissedRoom(TryJoinRoom(w, u, filter, pick, now))
  {
    hide Count, Sum, RoomInv, LedgerInv, NoMissedMatch, PairsInv, SeekersInv, MirrorInv, NoMissedRoom;
    var w' := TryJoinRoom(w, u, filter, pick, now);
    if pick.Some? {
      JoinKeeps(w.db, u, pick.value, None);
      forall s ensures NoNewChance(w, w', s) {
        Unchanged(w.seekers, []);
        MoreMembersLessSpace(w.db, w'.db, s);
      }
      NoChanceKeeps(w, w');
    } else {
      WaitingIsHarmless(w, w', u, filter, now);
    }
  }

  lemma WaitingIsHarmless(w: World, w': World, u: UserId, filter: Pref, now: real)
    requires NoMissedRoom(w) && (forall r :: !Suitable(w.db, filter, r))
    requires w' == w.(seekers := EnqueueSeeker(w.seekers, u, filter, now))
    ensures NoMissedRoom(w')
  {
    forall r, p, v ensures !Missed(w', r, p, v) {
      assert NobodyMissed(w, r) && !Missed(w, r, p, v);
      assert !Suitable(w.db, filter, r);
    }
  }

  /** A seeker who is in a room already cannot be let in and waits beside a free place. */
  lemma WaitsInVain(w: World, u: UserId, filter: Pref, r: RoomId, now: real)
    requires Suitable(w.db, filter, r) && u in w.db.users && ActiveRoom(w.db, u).Some?
    ensures !NoMissedRoom(TryJoinRoom(w, u, filter, Some(r), now))
  {
    var w' := TryJoinRoom(w, u, filter, Some(r), now);
    assert !NobodyMissed(w', r) by { assert Missed(w', r, filter, u); }
  }

  lemma SearchResultFrame(db: Db, db': Db, filter: Pref, pick: Option<RoomId>)
    requires SameRooms(db, db') && IsSearchResult(db, filter, pick)
    ensures IsSearchResult(db', filter, pick)
  {
    forall r ensures Suitable(db', filter, r) == Suitable(db, filter, r) {}
  }

  /** A room search leaves a missed room behind just when the searcher is in a room already,
      can pay, and some open room with a place suits. */
  lemma SearchRoomExactly(w: World, u: UserId, filter: Pref, pick: Option<RoomId>, now: real)
    requires WorldInv(w) && NoMissedRoom(w) && IsSearchResult(w.db, filter, pick)
    ensures NoMissedRoom(SearchRoom(w, u, filter, pick, now)) <==>
            !(SearchGoesAhead(w, u) && ActiveRoom(w.db, u).Some? && exists r :: Suitable(w.db, filter, r))
  {
    PickExists(w.db, filter, pick);
    hide WorldInv, NoMissedRoom, TryJoinRoom, IsSearchResult, Suitable;
    if SearchGoesAhead(w, u) {
      PayRoomSearch(w, u);
      var db := Deduct(w.db, u, ROOM_SEARCH_COST, RoomSearch).value;
      var w1 := w.(db := db);
      UntouchedKeeps(w, w1);
      SearchResultFrame(w.db, db, filter, pick);
      if pick.Some? && ActiveRoom(w.db, u).Some? {
        assert Suitable(db, filter, pick.value) by { PickSuits(db, filter, pick.value); }
        WaitsInVain(w1, u, filter, pick.value, now);
      } else {
        TryJoinRoomQuiet(w1, u, filter, pick, now);
      }
    }
  }

  lemma PickExists(db: Db, filter: Pref, pick: Option<RoomId>)
    requires IsSearchResult(db, filter, pick)
    ensures pick.Some? <==> exists r :: Suitable(db, filter, r)
  {
    hide Suitable;
  }

  lemma PickSuits(db: Db, filter: Pref, r: RoomId)
    requires IsSearchResult(db, filter, Some(r))
    ensures Suitable(db, filter, r)
  {
  }

  // ---------------------------------------------------------------- reopening and bans

  ghost predicate SomebodyWaitsFor(s: Seekers, pref: Pref) {
    exists p, u :: PrefsAgree(p, pref) && u in s.Bucket(p)
  }

  /** After a change of room `r` alone: a room is missed just when it is `r`. */
  lemma OneRoomExactly(w: World, w': World, r: RoomId)
    requires NoMissedRoom(w) && OnlyRoom(w.db, w'.db, r) && w'.seekers == w.seekers
    ensures NoMissedRoom(w') <==> !(HasSpace(w'.db, r) && SomebodyWaitsFor(w.seekers, w.db.rooms[r].pref))
  {
    hide OnlyRoom, NoMissedRoom;
    assert r in w.db.rooms && (HasSpace(w'.db, r) ==> w'.db.rooms[r].pref == w.db.rooms[r].pref) by {
      OnlyRoomPref(w.db, w'.db, r);
    }
    assert NobodyMissed(w', r) <==> !(HasSpace(w'.db, r) && SomebodyWaitsFor(w.seekers, w.db.rooms[r].pref)) by {
      if HasSpace(w'.db, r) {
        if p, u :| PrefsAgree(p, w.db.rooms[r].pref) && u in w.seekers.Bucket(p) { assert Missed(w', r, p, u); }
      }
    }
    hide NobodyMissed, HasSpace, SomebodyWaitsFor;
    if NobodyMissed(w', r) {
      RestIsServed(w, w', r);
    } else {
      assert !NoMissedRoom(w') by { SomeRoomMissed(w', r); }
    }
  }

  lemma SomeRoomMissed(w: World, r: RoomId)
    requires !NobodyMissed(w, r)
    ensures !NoMissedRoom(w)
  {
  }

  lemma RestIsServed(w: World, w': World, r: RoomId)
    requires NoMissedRoom(w) && OnlyRoom(w.db, w'.db, r) && w'.seekers == w.seekers && NobodyMissed(w', r)
    ensures NoMissedRoom(w')
  {
    hide OnlyRoom, NobodyMissed;
    forall s ensures NobodyMissed(w', s) {
      if s != r {
        OneRoomNoChance(w, w', r, s);
        NoNewChanceKeeps(w, w', s);
      }
    }
  }

  lemma OnlyRoomPref(db: Db, db': Db, r: RoomId)
    requires OnlyRoom(db, db', r)
    ensures r in db.rooms && (HasSpace(db', r) ==> db'.rooms[r].pref == db.rooms[r].pref)
  {
  }

  /** The user owns a room with a free place, and somebody it would take waits. */
  ghost predicate OwnsWantedPlace(w: World, u: UserId) {
    match ActiveRoom(w.db, u)
    case None => false
    case Some(r) =>
      && r in w.db.rooms && w.db.rooms[r].owner == u && |MembersOf(w.db, r)| < w.db.rooms[r].capacity
      && SomebodyWaitsFor(w.seekers, w.db.rooms[r].pref)
  }

  /** Reopening runs no trigger: it leaves a missed room behind just when the caller owns a
      room with a free place and somebody it would take is waiting. */
  lemma ReopenExactly(w: World, u: UserId)
    requires WorldInv(w) && NoMissedRoom(w)
    ensures NoMissedRoom(SetOpenFlow(w, u, true)) <==> !OwnsWantedPlace(w, u)
  {
    hide Count, Sum, NoMissedMatch, PairsInv, LedgerInv, SeekersInv, MirrorInv, SearchFees, RequestsInv,
      NoMissedRoom, SomebodyWaitsFor, SetRoomOpen;
    var (db, res) := SetRoomOpen(w.db, u, true);
    SetOpenKeeps(w.db, u, true);
    if ActiveRoom(w.db, u).Some? { ActiveIffMember(w.db, u, ActiveRoom(w.db, u).value); }
    hide RoomInv;
    if res.Ok? {
      OneRoomExactly(w, SetOpenFlow(w, u, true), res.value.room);
    } else {
      SameAfterMirror(w, ClearMirror(w.mirror, {u}));
    }
  }

  /** The user is an ordinary member of an open room of three or more that somebody waits for. */
  ghost predicate HoldsWantedPlace(w: World, u: UserId) {
    match ActiveRoom(w.db, u)
    case None => false
    case Some(r) =>
      && IsOpen(w.db, r) && w.db.rooms[r].owner != u && |MembersOf(w.db, r)| >= 3
      && SomebodyWaitsFor(w.seekers, w.db.rooms[r].pref)
  }

  /** Nor does a ban: it leaves a missed room behind just when the user is an ordinary member
      of an open room of three or more, and somebody the room would take waits. */
  lemma BanExactly(w: World, u: UserId)
    requires WorldInv(w) && NoMissedRoom(w)
    ensures NoMissedRoom(EnforceBan(w, u)) <==> !HoldsWantedPlace(w, u)
  {
    hide Count, Sum, NoMissedMatch, PairsInv, LedgerInv, SeekersInv, MirrorInv, SearchFees, RequestsInv,
      NoMissedRoom, SomebodyWaitsFor, RemoveBanned, OnlyRoom;
    var (db, out) := RemoveBanned(w.db, u);
    var w1 := w.(pairs := ClearPartner(w.pairs, u));
    UntouchedKeeps(w, w1);
    BanKeeps(w.db, u);
    if out.Some? {
      var r := ActiveRoom(w.db, u).value;
      OneRoomExactly(w1, EnforceBan(w, u), r);
      BannedSpace(w.db, u);
    }
  }

  lemma BannedSpace(db: Db, u: UserId)
    requires DbInv(db) && ActiveRoom(db, u).Some?
    ensures var r := ActiveRoom(db, u).value;
            && r in db.rooms
            && (HasSpace(RemoveBanned(db, u).0, r) <==> IsOpen(db, r) && db.rooms[r].owner != u && |MembersOf(db, r)| >= 3)
  {
    hide Count, Sum, LedgerInv;
    var r := ActiveRoom(db, u).value;
    ActiveIffMember(db, u, r);
    BanKeeps(db, u);
    assert RoomOk(db, r);
    assert |MembersOf(db, r) - {u}| == |MembersOf(db, r)| - 1;
  }

  // ---------------------------------------------------------------- the sweep

  /** The list the sweep works through: at least the rooms with a free place. */
  ghost predicate ListsSpareRooms(db: Db, rooms: seq<RoomId>) {
    forall r | HasSpace(db, r) :: r in rooms
  }

  lemma {:induction false} FillAllSettles(w: World, rooms: seq<RoomId>, s: RoomId)
    requires WorldInv(w) && (s in rooms || NobodyMissed(w, s))
    ensures NobodyMissed(FillAll(w, rooms), s)
    decreases |rooms|
  {
    hide WorldInv, Fill, NobodyMissed, NoNewChance;
    if rooms != [] {
      FillKeeps(w, rooms[0]);
      if s == rooms[0] {
        FillSettles(w, s);
      } else if s !in rooms[1..] {
        assert rooms == [rooms[0]] + rooms[1..];
        FillAddsNoChance(w, rooms[0], s);
        NoNewChanceKeeps(w, Fill(w, rooms[0]), s);
      }
      FillAllSettles(Fill(w, rooms[0]), rooms[1..], s);
    }
  }

  /** From whatever state, the sweep leaves no missed room behind. */
  lemma SweepRestores(w: World, cutoff: real, rooms: seq<RoomId>)
    requires WorldInv(w) && ListsSpareRooms(w.db, rooms)
    ensures NoMissedRoom(Sweep(w, cutoff, rooms))
  {
    hide WorldInv;
    PurgedKeeps(w, cutoff);
    var w1 := w.(seekers := PurgeSeekers(w.seekers, cutoff));
    forall s ensures NobodyMissed(FillAll(w1, rooms), s) {
      FillAllSettles(w1, rooms, s);
    }
  }

  // ---------------------------------------------------------------- runs

  /** Everything but reopening a room, a ban, and a room search from within a room; the
      search query answers as it should. */
  ghost predicate Quiet(w: World, e: Event) {
    && Allowed(w, e)
    && !e.UserBanned? && !(e.RoomSwitched? && e.isOpen)
    && (e.RoomSearched? ==> IsSearchResult(w.db, e.filter, e.pick) && ActiveRoom(w.db, e.u) == None)
  }

  lemma QuietStep(w: World, e: Event)
    requires WorldInv(w) && NoMissedRoom(w) && Quiet(w, e)
    ensures NoMissedRoom(Apply(w, e))
  {
    hide WorldInv, NoMissedRoom, SearchRoom, Sweep, CreateFlow, Apply;
    match e
    case RoomSearched(u, filter, pick, now) =>
      SearchRoomExactly(w, u, filter, pick, now);
      assert Apply(w, e) == SearchRoom(w, u, filter, pick, now) by { ApplyRoomEvent(w, e); }
    case RoomSearchCancelled(_) => QueueEventQuiet(w, e);
    case RoomSearchTimesOut(_, _) => QueueEventQuiet(w, e);
    case BotRestarts => QueueEventQuiet(w, e);
    case QueueSwept(cutoff, rooms) =>
      SweepQuiet(w, cutoff, rooms);
      assert Apply(w, e) == Sweep(w, cutoff, rooms) by { ApplyRoomEvent(w, e); }
    case RoomCreated(u, filter, capacity, now) =>
      CreateFlowQuiet(w, u, filter, capacity, now);
      assert Apply(w, e) == CreateFlow(w, u, filter, capacity, now) by { ApplyRoomEvent(w, e); }
    case RoomLeft(_) => MembershipQuiet(w, e);
    case MemberKicked(_, _) => MembershipQuiet(w, e);
    case RoomDeleted(_) => MembershipQuiet(w, e);
    case RoomSwitched(_, _) => MembershipQuiet(w, e);
    case _ =>
      AsideUntouched(w, e);
      UntouchedKeeps(w, Apply(w, e));
  }

  lemma ApplyRoomEvent(w: World, e: Event)
    ensures e.RoomSearched? ==> Apply(w, e) == SearchRoom(w, e.u, e.filter, e.pick, e.now)
    ensures e.QueueSwept? ==> Apply(w, e) == Sweep(w, e.cutoff, e.rooms)
    ensures e.RoomCreated? ==> Apply(w, e) == CreateFlow(w, e.u, e.filter, e.capacity, e.now)
  {
    hide SearchRoom, Sweep, CreateFlow;
  }

  ghost predicate QuietRun(w: World, es: seq<Event>)
    decreases |es|
  {
    es != [] ==> Quiet(w, es[0]) && QuietRun(Apply(w, es[0]), es[1..])
  }

  lemma {:induction false} QuietRunKeeps(w: World, es: seq<Event>)
    requires WorldInv(w) && NoMissedRoom(w) && QuietRun(w, es)
    ensures WorldInv(Run(w, es)) && NoMissedRoom(Run(w, es))
    decreases |es|
  {
    hide WorldInv, NoMissedRoom, Apply;
    if es != [] {
      QuietStep(w, es[0]);
      StepKeeps(w, es[0]);
      QuietRunKeeps(Apply(w, es[0]), es[1..]);
    }
  }

  /** Between sweeps: in any reachable state, a sweep followed by any quiet run leaves no
      open room with a free place beside a seeker it would take. */
  lemma NoMissedRoomAfterSweep(before: seq<Event>, cutoff: real, rooms: seq<RoomId>, after: seq<Event>)
    requires AllowedRun(EMPTY, before)
    requires var w := Run(EMPTY, before);
             ListsSpareRooms(w.db, rooms) && QuietRun(Sweep(w, cutoff, rooms), after)
    ensures NoMissedRoom(Run(Sweep(Run(EMPTY, before), cutoff, rooms), after))
  {
    hide WorldInv, NoMissedRoom, Sweep;
    var w := Run(EMPTY, before);
    EveryReachableStateIsGood(before);
    SweepRestores(w, cutoff, rooms);
    SweepKeeps(w, cutoff, rooms);
    QuietRunKeeps(Sweep(w, cutoff, rooms), after);
  }

  /** Even without a sweep, while no room is reopened and nobody banned. */
  lemma NoMissedRoomInQuietRuns(es: seq<Event>)
    requires QuietRun(EMPTY, es)
    ensures NoMissedRoom(Run(EMPTY, es))
  {
    hide WorldInv, NoMissedRoom;
    EmptyIsGood();
    assert NoMissedRoom(EMPTY) by { EmptyServes(); }
    QuietRunKeeps(EMPTY, es);
  }

  lemma EmptyServes()
    ensures NoMissedRoom(EMPTY)
  {
  }
}
