/** What leaving, moderation, bans and the mirror mean to the members of a room and to
    everybody else. */
module MemberOutcomes {
  import opened Basics
  import opened SortedSets
  import opened Ledger
  import opened Database
  import opened RoomInvariant
  import opened RoomTransactions
  import opened MatchQueue
  import opened World
  import opened ChatHandlers
  import opened RoomHandlers
  import opened WorldInvariant
  import opened ChatSteps
  import opened RoomSteps
  import opened RoomFlows
  import opened FillOrder
  import opened FillExactly
  import opened Effects
  import opened FillEffects
  import opened ChatOutcomes

  // ---------------------------------------------------------------- leaving and kicking

  /** A leaver who also waits for a room gets its place back: the room lives on, and nobody
      else takes the free places before the leaver's turn comes. */
  predicate Readmitted(w: World, u: UserId, r: RoomId)
    requires ActiveRoom(w.db, u).Some?
  {
    |MembersOf(w.db, r)| > 2 && Taken(Without(w, u, r), r, u)
  }

  /** The owner, left alone, is free as well; room and rows are gone, and nobody else is
      affected. */
  ghost predicate Dissolves(w: World, w': World, u: UserId, r: RoomId)
    requires r in w.db.rooms
  {
    var o := w.db.rooms[r].owner;
    && w'.db.rooms == w.db.rooms[r := w.db.rooms[r].(status := Deleted)] && MembersOf(w'.db, r) == {}
    && (forall v :: ActiveRoom(w'.db, v) == if v == u || v == o then None else ActiveRoom(w.db, v))
    && (forall v | v != u && v != o :: SameMirror(w.mirror, w'.mirror, v))
    && (forall v | v == u || v == o :: v !in w'.mirror.room && v !in w'.mirror.suppressed)
    && w'.seekers == w.seekers
  }

  /** The room lives on without `u`; its place goes to the line; the mirror follows those who
      get a place, and stays as it is for everybody else. */
  ghost predicate LivesOn(w: World, w': World, u: UserId, r: RoomId)
    requires ActiveRoom(w.db, u).Some?
  {
    var back := if Readmitted(w, u, r) then Some(r) else None;
    && w'.db.rooms == w.db.rooms && MembersOf(w.db, r) - {u} <= MembersOf(w'.db, r) && |MembersOf(w'.db, r)| >= 2
    && ActiveRoom(w'.db, u) == back && Get(w'.mirror.room, u) == back && u !in w'.mirror.suppressed
    && (forall v | v != u :: RoomFollows(w, w', v)) && SeekersServed(w.seekers, w'.seekers)
  }

  /** What a departure of `u` from room `r` comes to. */
  ghost predicate Departed(w: World, w': World, u: UserId, r: RoomId)
    requires ActiveRoom(w.db, u).Some? && r in w.db.rooms
  {
    && (if |MembersOf(w.db, r)| == 2 then Dissolves(w, w', u, r) else LivesOn(w, w', u, r))
    && (forall s | s != r :: MembersOf(w'.db, s) == MembersOf(w.db, s)) && NoCoinMoves(w.db, w'.db) && OnlyRoomSide(w, w')
  }

  lemma DepartureBooks(db: Db, r: RoomId, u: UserId)
    requires r in db.rooms && u in db.users
    ensures NoCoinMoves(db, Depart(db, r, u).0)
  {
  }

  /** The trigger after a departure. */
  lemma LeaverFate(w: World, r: RoomId, u: UserId)
    requires WorldInv(w) && ActiveRoom(w.db, u) == None
    ensures var w' := Fill(w, r);
            && ActiveRoom(w'.db, u) == (if Taken(w, r, u) then Some(r) else None)
            && Get(w'.mirror.room, u) == (if Taken(w, r, u) then Some(r) else Get(w.mirror.room, u))
  {
    hide WorldInv, Fill, Seekers.Filter, FreeAhead, CompatibleBuckets, SeekersServed;
    FillOutcome(w, r);
    assert RoomFollows(w, Fill(w, r), u);
    if w.seekers.Filter(u).Some? { FillTakesExactly(w, r, u); }
  }

  lemma DissolvedOutcome(w: World, u: UserId, r: RoomId)
    requires WorldInv(w) && ActiveRoom(w.db, u) == Some(r) && r in w.db.rooms && w.db.rooms[r].owner != u
    requires |MembersOf(w.db, r)| == 2
    ensures var (db, d) := Depart(w.db, r, u);
            Dissolves(w, AfterDeparture(w, u, db, d), u, r)
  {
    hide Sum, Count, LedgerInv, SeekersInv, RequestsInv, MirrorInv, NoMissedMatch, SearchFees, PairsInv, Exclusive,
      Depart, Fill;
    var o := w.db.rooms[r].owner;
    DepartKeeps(w.db, r, u);
    DepartureTriggers(w, u, r);
    DissolvedTable(w.db, r, u);
    forall v { ActiveIffMember(w.db, v, r); }
    assert RoomOk(w.db, r);
    var (db, d) := Depart(w.db, r, u);
    assert MembersOf(w.db, r) == {u, o} by { assert MembersOf(w.db, r) - {u} == {o}; }
  }

  lemma DissolvedTable(db: Db, r: RoomId, u: UserId)
    requires r in db.rooms && u in db.users
    ensures var (db', d) := Depart(db, r, u);
            d.autoDeleted ==> db'.rooms == db.rooms[r := db.rooms[r].(status := Deleted)]
  {
  }

  lemma VacatedOutcome(w: World, u: UserId, r: RoomId)
    requires WorldInv(w) && ActiveRoom(w.db, u) == Some(r) && r in w.db.rooms && w.db.rooms[r].owner != u
    requires |MembersOf(w.db, r)| > 2
    ensures var (db, d) := Depart(w.db, r, u);
            var w' := AfterDeparture(w, u, db, d);
            LivesOn(w, w', u, r) && NoCoinMoves(w.db, w'.db) && OnlyRoomSide(w, w')
            && forall s | s != r :: MembersOf(w'.db, s) == MembersOf(w.db, s)
  {
    hide Sum, Count, LedgerInv, SeekersInv, RequestsInv, MirrorInv, NoMissedMatch, SearchFees, PairsInv, Exclusive,
      Depart, Fill, Seekers.Filter, FreeAhead, RemoveMember, RoomInv, SeekersServed;
    DepartKeeps(w.db, r, u);
    DepartedWorld(w, u, r);
    DepartureTriggers(w, u, r);
    DepartureBooks(w.db, r, u);
    var (db, d) := Depart(w.db, r, u);
    VacatedRooms(w, u, r);
    var w1 := w.(db := db, mirror := ClearMirror(w.mirror, {u}));
    SameLine(w1, Without(w, u, r), w.db.rooms[r].pref, u);
    LeaverFate(w1, r, u);
    FillOutcome(w1, r);
    GrownRoom(MembersOf(w1.db, r), MembersOf(Fill(w1, r).db, r));
    VacatedThenFilled(w, w1, Fill(w1, r), u, r);
  }

  lemma GrownRoom(a: set<UserId>, b: set<UserId>)
    requires a <= b
    ensures |a| <= |b|
  {
    assert b == a + (b - a);
  }

  /** A departure that leaves the room alive frees `u` alone. */
  lemma VacatedRooms(w: World, u: UserId, r: RoomId)
    requires WorldInv(w) && ActiveRoom(w.db, u) == Some(r) && r in w.db.rooms && w.db.rooms[r].owner != u
    requires |MembersOf(w.db, r)| > 2
    ensures var db := Depart(w.db, r, u).0;
            && MembersOf(db, r) == MembersOf(w.db, r) - {u} && (forall s | s != r :: MembersOf(db, s) == MembersOf(w.db, s))
            && forall v :: ActiveRoom(db, v) == if v == u then None else ActiveRoom(w.db, v)
  {
    DepartureTriggers(w, u, r);
    hide WorldInv, Depart;
  }

  lemma VacatedThenFilled(w: World, w1: World, w': World, u: UserId, r: RoomId)
    requires w1 == w.(db := w1.db, mirror := ClearMirror(w.mirror, {u})) && Fills(w1, w') && NoCoinMoves(w.db, w1.db)
    requires forall v :: ActiveRoom(w1.db, v) == if v == u then None else ActiveRoom(w.db, v)
    ensures forall v | v != u :: RoomFollows(w, w', v)
    ensures u !in w'.mirror.suppressed && NoCoinMoves(w.db, w'.db)
  {
    hide Seekers.Filter, SeekersServed, ActiveRoom;
    assert RoomFollows(w1, w', u);
    forall v | v != u ensures RoomFollows(w, w', v) { assert RoomFollows(w1, w', v); }
    forall x | x in w.db.users ensures Coins(w'.db, x) == Coins(w.db, x) { assert Coins(w1.db, x) == Coins(w.db, x); }
  }

  lemma DepartureOutcome(w: World, u: UserId, r: RoomId)
    requires WorldInv(w) && ActiveRoom(w.db, u) == Some(r) && r in w.db.rooms && w.db.rooms[r].owner != u
    ensures var (db, d) := Depart(w.db, r, u);
            Departed(w, AfterDeparture(w, u, db, d), u, r)
  {
    hide Sum, Count, LedgerInv, SeekersInv, RequestsInv, MirrorInv, NoMissedMatch, SearchFees, PairsInv, Exclusive,
      Depart, Fill, Dissolves, LivesOn;
    ActiveIffMember(w.db, u, r);
    TwoAtLeast(w.db, u, r);
    DepartKeeps(w.db, r, u);
    DepartureTriggers(w, u, r);
    DepartureBooks(w.db, r, u);
    if |MembersOf(w.db, r)| == 2 { DissolvedOutcome(w, u, r); } else { VacatedOutcome(w, u, r); }
  }

  /** An ordinary member is never alone. */
  lemma TwoAtLeast(db: Db, u: UserId, r: RoomId)
    requires RoomInv(db) && ActiveRoom(db, u) == Some(r) && r in db.rooms && db.rooms[r].owner != u
    ensures |MembersOf(db, r)| >= 2
  {
    ActiveIffMember(db, u, r);
    GrownRoom({u, db.rooms[r].owner}, MembersOf(db, r));
  }

  /** Leaving: an ordinary member departs; an owner is told so and nothing happens; who is in
      no room at all only has its mirror cleared. */
  ghost predicate LeaveMeans(w: World, w': World, u: UserId) {
    match ActiveRoom(w.db, u)
    case None => w' == w.(mirror := Mirror(w.mirror.room - {u}, w.mirror.suppressed - {u}))
    case Some(r) => r in w.db.rooms && if w.db.rooms[r].owner == u then w' == w else Departed(w, w', u, r)
  }

  lemma LeaveOutcome(w: World, u: UserId)
    requires WorldInv(w)
    ensures LeaveMeans(w, LeaveFlow(w, u), u)
  {
    hide Sum, Count, LedgerInv, SeekersInv, RequestsInv, MirrorInv, NoMissedMatch, SearchFees, PairsInv, Exclusive,
      Departed, AfterDeparture, Depart;
    if ActiveRoom(w.db, u).Some? {
      var r := ActiveRoom(w.db, u).value;
      ActiveIffMember(w.db, u, r);
      if w.db.rooms[r].owner != u { DepartureOutcome(w, u, r); }
    }
  }

  /** `owner` owns the room it is in. */
  predicate Owns(db: Db, owner: UserId, r: RoomId) {
    ActiveRoom(db, owner) == Some(r) && r in db.rooms && db.rooms[r].owner == owner
  }

  /** Kicking: the owner makes another member of its room depart; anything else does nothing. */
  ghost predicate KickMeans(w: World, w': World, owner: UserId, target: UserId) {
    && (forall r | Owns(w.db, owner, r) && target != owner && ActiveRoom(w.db, target) == Some(r) :: Departed(w, w', target, r))
    && ((forall r :: !(Owns(w.db, owner, r) && target != owner && ActiveRoom(w.db, target) == Some(r))) ==> w' == w)
  }

  lemma KickOutcome(w: World, owner: UserId, target: UserId)
    requires WorldInv(w)
    ensures KickMeans(w, KickFlow(w, owner, target), owner, target)
  {
    hide Sum, Count, LedgerInv, SeekersInv, RequestsInv, MirrorInv, NoMissedMatch, SearchFees, PairsInv, Exclusive,
      Departed, AfterDeparture, Depart, RoomInv;
    if ActiveRoom(w.db, owner).Some? {
      var r := ActiveRoom(w.db, owner).value;
      if Owns(w.db, owner, r) && target != owner && ActiveRoom(w.db, target) == Some(r) { DepartureOutcome(w, target, r); }
    }
  }

  // ---------------------------------------------------------------- deleting and switching

  /** Deleting frees all members, and their mirrors; nobody else is affected. */
  ghost predicate DeletesRoom(w: World, w': World, r: RoomId)
    requires r in w.db.rooms
  {
    && w'.db.rooms == w.db.rooms[r := w.db.rooms[r].(status := Deleted)] && MembersOf(w'.db, r) == {}
    && (forall s | s != r :: MembersOf(w'.db, s) == MembersOf(w.db, s))
    && (forall v | IsMember(w.db, r, v) :: ActiveRoom(w'.db, v) == None && v !in w'.mirror.room && v !in w'.mirror.suppressed)
    && (forall v | !IsMember(w.db, r, v) :: ActiveRoom(w'.db, v) == ActiveRoom(w.db, v) && SameMirror(w.mirror, w'.mirror, v))
    && NoCoinMoves(w.db, w'.db) && w'.seekers == w.seekers && OnlyRoomSide(w, w')
  }

  /** What a command of an owner does to somebody who is none: nothing, or, without a room at
      all, a cleared mirror. */
  predicate TurnedAway(w: World, w': World, u: UserId) {
    if ActiveRoom(w.db, u).Some? then w' == w
    else w' == w.(mirror := Mirror(w.mirror.room - {u}, w.mirror.suppressed - {u}))
  }

  ghost predicate DeleteMeans(w: World, w': World, owner: UserId) {
    && (forall r | Owns(w.db, owner, r) :: DeletesRoom(w, w', r))
    && ((forall r :: !Owns(w.db, owner, r)) ==> TurnedAway(w, w', owner))
  }

  lemma DeleteOutcome(w: World, owner: UserId)
    requires WorldInv(w)
    ensures DeleteMeans(w, DeleteFlow(w, owner), owner)
  {
    hide Sum, Count, LedgerInv, SeekersInv, RequestsInv, MirrorInv, NoMissedMatch, SearchFees, PairsInv, Exclusive;
    if ActiveRoom(w.db, owner).Some? {
      var r := ActiveRoom(w.db, owner).value;
      ActiveIffMember(w.db, owner, r);
      DeletionTable(w.db, owner, r);
      if Owns(w.db, owner, r) { DeleteKeeps(w.db, owner); }
    }
    hide RoomInv;
  }

  lemma DeletionTable(db: Db, owner: UserId, r: RoomId)
    requires ActiveRoom(db, owner) == Some(r) && r in db.rooms
    ensures var (db', res) := DeleteRoom(db, owner);
            && (db.rooms[r].owner != owner ==> db' == db && res == Err(NotOwner))
            && (db.rooms[r].owner == owner ==>
                  && res == Ok(Deletion(r, MembersOf(db, r))) && NoCoinMoves(db, db')
                  && db'.rooms == db.rooms[r := db.rooms[r].(status := Deleted)] && MembersOf(db', r) == {}
                  && (forall s | s != r :: MembersOf(db', s) == MembersOf(db, s))
                  && (forall v :: ActiveRoom(db', v) == if IsMember(db, r, v) then None else ActiveRoom(db, v)))
  {
  }

  /** Closing switches the room keyboards of all other members off, reopening switches them
      on; nobody joins or leaves, and the owner's keyboard stays as it is. */
  ghost predicate Switches(w: World, w': World, owner: UserId, r: RoomId, isOpen: bool)
    requires r in w.db.rooms
  {
    && w' == w.(db := w'.db, mirror := w'.mirror)
    && w'.db == w.db.(rooms := w.db.rooms[r := w.db.rooms[r].(status := if isOpen then Open else RoomStatus.Closed)])
    && (forall v | IsMember(w.db, r, v) && v != owner :: v in w'.mirror.suppressed <==> !isOpen)
    && (forall v | !IsMember(w.db, r, v) || v == owner :: v in w'.mirror.suppressed <==> v in w.mirror.suppressed)
    && w'.mirror.room == w.mirror.room
  }

  ghost predicate SwitchMeans(w: World, w': World, owner: UserId, isOpen: bool) {
    && (forall r | Owns(w.db, owner, r) :: Switches(w, w', owner, r, isOpen))
    && ((forall r :: !Owns(w.db, owner, r)) ==> TurnedAway(w, w', owner))
  }

  lemma SwitchOutcome(w: World, owner: UserId, isOpen: bool)
    requires WorldInv(w)
    ensures SwitchMeans(w, SetOpenFlow(w, owner, isOpen), owner, isOpen)
  {
    hide Sum, Count, LedgerInv, SeekersInv, RequestsInv, MirrorInv, NoMissedMatch, SearchFees, PairsInv, Exclusive;
    if ActiveRoom(w.db, owner).Some? {
      var r := ActiveRoom(w.db, owner).value;
      ActiveIffMember(w.db, owner, r);
      assert Owns(w.db, owner, r) <==> w.db.rooms[r].owner == owner;
    }
    hide RoomInv;
  }

  // ---------------------------------------------------------------- bans

  /** A ban ends the 1:1 chat, if there is one, and pays nobody back; other pairs go on. */
  ghost predicate ChatCut(w: World, w': World, u: UserId) {
    match w.pairs.Partner(u)
    case None => w'.pairs == w.pairs
    case Some(v) =>
      && w'.pairs.Partner(u) == None && w'.pairs.Partner(v) == None && OthersKeepPartner(w, w', u, v)
      && w'.pairs.payer == w.pairs.payer - {u, v}
      && forall a, b :: w'.pairs.MsgCount(a, b) == if {a, b} == {u, v} then 0 else w.pairs.MsgCount(a, b)
  }

  /** A banned owner keeps its membership in the room that is closed; an ordinary member loses
      it, and the room is closed if only its owner is left. The mirror of the banned user is
      cleared, and nobody else's. */
  ghost predicate ShutOut(w: World, w': World, u: UserId, r: RoomId)
    requires r in w.db.rooms
  {
    var owner := w.db.rooms[r].owner == u;
    && u !in w'.mirror.room && u !in w'.mirror.suppressed && (forall v | v != u :: SameMirror(w.mirror, w'.mirror, v))
    && MembersOf(w'.db, r) == (if owner then MembersOf(w.db, r) else MembersOf(w.db, r) - {u})
    && (forall s | s != r :: MembersOf(w'.db, s) == MembersOf(w.db, s))
    && (forall v :: ActiveRoom(w'.db, v) == if v == u && !owner then None else ActiveRoom(w.db, v))
    && w'.db.rooms == (if owner || |MembersOf(w.db, r)| == 2
                       then w.db.rooms[r := w.db.rooms[r].(status := RoomStatus.Closed)] else w.db.rooms)
  }

  ghost predicate BanMeans(w: World, w': World, u: UserId) {
    && ChatCut(w, w', u) && NoCoinMoves(w.db, w'.db)
    && w'.queue == w.queue && w'.seekers == w.seekers && w'.requests == w.requests
    && match ActiveRoom(w.db, u)
       case None => w'.db == w.db && w'.mirror == w.mirror
       case Some(r) => r in w.db.rooms && ShutOut(w, w', u, r)
  }

  lemma BannedOutcome(w: World, u: UserId)
    requires WorldInv(w)
    ensures BanMeans(w, EnforceBan(w, u), u)
  {
    hide EnforceBan, ChatCut, ShutOut, WorldInv, NoCoinMoves;
    BanParts(w, u);
    BannedChat(w, EnforceBan(w, u), u);
    if ActiveRoom(w.db, u).Some? { BannedRoom(w, u, ActiveRoom(w.db, u).value); } else { NoCoins(w.db); }
  }

  lemma NoCoins(db: Db)
    ensures NoCoinMoves(db, db)
  {
  }

  lemma BanParts(w: World, u: UserId)
    ensures var w' := EnforceBan(w, u);
            && w'.pairs == ClearPartner(w.pairs, u) && w'.queue == w.queue && w'.seekers == w.seekers && w'.requests == w.requests
            && (RemoveBanned(w.db, u).1.None? ==> w'.db == w.db && w'.mirror == w.mirror)
            && (RemoveBanned(w.db, u).1.Some? ==>
                  w'.db == RemoveBanned(w.db, u).0 && w'.mirror == Mirror(w.mirror.room - {u}, w.mirror.suppressed - {u}))
    ensures ActiveRoom(w.db, u) == None ==> RemoveBanned(w.db, u).1.None?
  {
    hide RemoveMember, SetStatus, ClearPartner;
  }

  lemma BannedChat(w: World, w': World, u: UserId)
    requires WorldInv(w) && w'.pairs == ClearPartner(w.pairs, u)
    ensures ChatCut(w, w', u)
  {
    if w.pairs.Partner(u).Some? { ClearedPair(w.pairs, u, w.pairs.Partner(u).value); }
    hide WorldInv, ClearPartner;
  }

  lemma BannedRoom(w: World, u: UserId, r: RoomId)
    requires WorldInv(w) && ActiveRoom(w.db, u) == Some(r)
    ensures var w' := EnforceBan(w, u);
            r in w.db.rooms && ShutOut(w, w', u, r) && NoCoinMoves(w.db, w'.db)
  {
    hide Sum, Count, LedgerInv, SeekersInv, RequestsInv, MirrorInv, NoMissedMatch, SearchFees, Exclusive, PairsInv,
      RemoveBanned, EnforceBan, NoCoinMoves;
    ActiveIffMember(w.db, u, r);
    assert RoomOk(w.db, r);
    if w.db.rooms[r].owner != u { TwoAtLeast(w.db, u, r); }
    hide RoomInv;
    BanTable(w.db, u, r);
    BanParts(w, u);
  }

  lemma BanTable(db: Db, u: UserId, r: RoomId)
    requires ActiveRoom(db, u) == Some(r) && r in db.rooms && db.rooms[r].status != Deleted && u in MembersOf(db, r)
    requires db.rooms[r].owner != u ==> |MembersOf(db, r)| >= 2
    ensures var (db', out) := RemoveBanned(db, u);
            var owner := db.rooms[r].owner == u;
            && out.Some? && NoCoinMoves(db, db')
            && MembersOf(db', r) == (if owner then MembersOf(db, r) else MembersOf(db, r) - {u})
            && (forall s | s != r :: MembersOf(db', s) == MembersOf(db, s))
            && (forall v :: ActiveRoom(db', v) == if v == u && !owner then None else ActiveRoom(db, v))
            && db'.rooms == (if owner || |MembersOf(db, r)| == 2
                             then db.rooms[r := db.rooms[r].(status := RoomStatus.Closed)] else db.rooms)
  {
    assert |MembersOf(db, r) - {u}| == |MembersOf(db, r)| - 1;
  }

  // ---------------------------------------------------------------- the mirror

  /** The check of the mirror clears the entry of a user Postgres does not confirm as a member
      of a room that is not deleted, and leaves everything else alone. */
  ghost predicate HealMeans(w: World, w': World, u: UserId, r: RoomId) {
    if r in w.db.rooms && w.db.rooms[r].status != Deleted && IsMember(w.db, r, u) then w' == w
    else w' == w.(mirror := w'.mirror) && u !in w'.mirror.room && u !in w'.mirror.suppressed
         && forall v | v != u :: SameMirror(w.mirror, w'.mirror, v)
  }

  lemma HealOutcome(w: World, u: UserId, r: RoomId)
    ensures HealMeans(w, HealMirror(w, u, r), u, r)
  {
  }

  /** The sync gives every user without an entry the room Postgres knows, and changes no entry
      there is. */
  ghost predicate SyncMeans(w: World, w': World) {
    && w' == w.(mirror := w'.mirror) && w'.mirror.suppressed == w.mirror.suppressed
    && forall u :: Get(w'.mirror.room, u) == if u in w.mirror.room then Get(w.mirror.room, u) else ActiveRoom(w.db, u)
  }

  lemma SyncOutcome(w: World)
    ensures SyncMeans(w, SyncMirror(w))
  {
  }

  /** Leaving the room keyboard switches it off for a user with an entry; nothing else changes. */
  ghost predicate ExitUiMeans(w: World, w': World, u: UserId) {
    && w' == w.(mirror := w'.mirror) && w'.mirror.room == w.mirror.room
    && forall v :: v in w'.mirror.suppressed <==> v in w.mirror.suppressed || (v == u && u in w.mirror.room)
  }

  lemma ExitUiOutcome(w: World, u: UserId)
    ensures ExitUiMeans(w, ExitRoomUi(w, u), u)
  {
  }

  /** Asking for the room switches the keyboard on again, or clears the entry of a room that is
      gone. */
  ghost predicate ShowMeans(w: World, w': World, u: UserId) {
    var gone := u in w.mirror.room && !(w.mirror.room[u] in w.db.rooms && w.db.rooms[w.mirror.room[u]].status != Deleted);
    && w' == w.(mirror := w'.mirror) && (forall v | v != u :: SameMirror(w.mirror, w'.mirror, v))
    && Get(w'.mirror.room, u) == (if gone then None else Get(w.mirror.room, u))
    && (u in w'.mirror.suppressed <==> u in w.mirror.suppressed && u !in w.mirror.room)
  }

  lemma ShowOutcome(w: World, u: UserId)
    ensures ShowMeans(w, ShowRoom(w, u), u)
  {
  }
}
