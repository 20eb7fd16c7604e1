/** Each of the seven room transactions keeps the database invariant. */
module RoomTransactions {
  import opened Basics
  import opened Ledger
  import opened Database
  import opened RoomInvariant

  /** The invariant read at one user and one room. */
  lemma ActiveIffMember(db: Db, u: UserId, r: RoomId)
    requires RoomInv(db)
    ensures ActiveRoom(db, u) == Some(r) <==> IsMember(db, r, u)
    ensures IsMember(db, r, u) ==> u in db.users && r in db.rooms && RoomOk(db, r) && db.rooms[r].status != Deleted
  {
    if IsMember(db, r, u) { assert r in db.rooms && RoomOk(db, r); }
  }

  /** Nothing but one room, its member set and the active rooms of its members changes. */
  ghost predicate OnlyRoom(db: Db, db': Db, r: RoomId) {
    && db'.users.Keys == db.users.Keys && db'.ledger == db.ledger && db'.nextId == db.nextId
    && (forall u | u in db.users :: db'.users[u].coins == db.users[u].coins)
    && r in db.rooms && db'.rooms.Keys == db.rooms.Keys
    && db'.rooms[r].(status := db.rooms[r].status) == db.rooms[r]
    && (db.rooms[r].status == Deleted ==> db'.rooms[r].status == Deleted)
    && (forall s | s != r && s in db.rooms :: db'.rooms[s] == db.rooms[s])
    && (forall s | s != r :: MembersOf(db', s) == MembersOf(db, s))
    && (forall u :: ActiveRoom(db', u) ==
          if IsMember(db', r, u) then Some(r) else if IsMember(db, r, u) then None else ActiveRoom(db, u))
  }

  lemma OnlyRoomKeeps(db: Db, db': Db, r: RoomId)
    requires DbInv(db) && OnlyRoom(db, db', r)
    requires forall u | IsMember(db', r, u) :: IsMember(db, r, u) || ActiveRoom(db, u) == None
    requires RoomOk(db', r)
    ensures DbInv(db') && Evolves(db, db')
  {
    forall u, s ensures ActiveRoom(db', u) == Some(s) <==> IsMember(db', s, u) {
      ActiveIffMember(db, u, s);
      ActiveIffMember(db, u, r);
    }
    forall s | s in db'.rooms ensures RoomOk(db', s) {
      assert RoomOk(db, s);
      assert s != r ==> MembersOf(db', s) == MembersOf(db, s);
    }
    forall s, u | IsMember(db', s, u) ensures s in db'.rooms {
      if s != r { assert IsMember(db, s, u); }
    }
  }

  lemma JoinKeeps(db: Db, u: UserId, r: RoomId, conflict: Option<Error>)
    requires DbInv(db)
    ensures var (db', res) := JoinRoom(db, u, r, conflict);
            && DbInv(db') && Evolves(db, db')
            && (res.Ok? <==> u in db.users && HasSpace(db, r) && ActiveRoom(db, u) == None && conflict == None)
            && (res.Ok? ==> OnlyRoom(db, db', r) && MembersOf(db', r) == MembersOf(db, r) + {u}
                            && u !in MembersOf(db, r) && db'.rooms == db.rooms)
            && (res.Err? ==> db' == db)
            && (conflict == None && res.Err? && res.error == HasActiveRoom ==> ActiveRoom(db, u).Some?)
  {
    var (db', res) := JoinRoom(db, u, r, conflict);
    if res.Ok? {
      ActiveIffMember(db, u, r);
      assert RoomOk(db, r);
      forall v ensures ActiveRoom(db', v) ==
          if IsMember(db', r, v) then Some(r) else if IsMember(db, r, v) then None else ActiveRoom(db, v)
      { ActiveIffMember(db, v, r); }
      assert OnlyRoom(db, db', r);
      OnlyRoomKeeps(db, db', r);
    }
  }

  lemma FreshIdIsUnused(db: Db)
    requires RoomInv(db)
    ensures db.nextId !in db.rooms && MembersOf(db, db.nextId) == {}
  {
    if db.nextId in db.rooms { var ok := RoomOk(db, db.nextId); }
    if u :| u in MembersOf(db, db.nextId) { ActiveIffMember(db, u, db.nextId); }
  }

  /** The new room is the only one added, with its owner as its one member. */
  ghost predicate Created(db: Db, db': Db, owner: UserId, r: RoomId, pref: Pref) {
    && r !in db.rooms && db'.rooms.Keys == db.rooms.Keys + {r}
    && IsOpen(db', r) && db'.rooms[r].pref == pref && db'.rooms[r].owner == owner
    && (forall s | s in db.rooms :: db'.rooms[s] == db.rooms[s])
    && (forall s :: MembersOf(db', s) == if s == r then {owner} else MembersOf(db, s))
    && db'.users.Keys == db.users.Keys
    && (forall u :: ActiveRoom(db', u) == if u == owner then Some(r) else ActiveRoom(db, u))
  }

  lemma InsertRoomKeeps(db: Db, owner: UserId, pref: Pref, capacity: int, now: real)
    requires DbInv(db) && owner in db.users && ActiveRoom(db, owner) == None && 2 <= capacity <= 5
    ensures var db' := InsertRoom(db, owner, pref, capacity, now);
            DbInv(db') && Evolves(db, db') && Created(db, db', owner, db.nextId, pref) && db'.ledger == db.ledger
  {
    var db' := InsertRoom(db, owner, pref, capacity, now);
    FreshIdIsUnused(db);
    forall u, s ensures ActiveRoom(db', u) == Some(s) <==> IsMember(db', s, u) {
      ActiveIffMember(db, u, s);
    }
    forall s | s in db'.rooms ensures RoomOk(db', s) {
      if s != db.nextId { assert RoomOk(db, s) && MembersOf(db', s) == MembersOf(db, s); }
    }
    forall s, u | IsMember(db', s, u) ensures s in db'.rooms {
      if s != db.nextId { assert IsMember(db, s, u); }
    }
  }

  lemma PaidInsertKeeps(db: Db, owner: UserId, pref: Pref, capacity: int, now: real)
    requires DbInv(db) && owner in db.users && ActiveRoom(db, owner) == None && 2 <= capacity <= 5
    requires db.users[owner].coins >= ROOM_CREATE_COST
    ensures var db' := InsertRoom(Post(db, owner, -ROOM_CREATE_COST, RoomCreate), owner, pref, capacity, now);
            DbInv(db') && Evolves(db, db') && Created(db, db', owner, db.nextId, pref) && Counted(db, db', owner, Other)
  {
    hide Post, InsertRoom, Sum, Count, RoomInv, LedgerInv;
    var db1 := Post(db, owner, -ROOM_CREATE_COST, RoomCreate);
    PostKeeps(db, owner, -ROOM_CREATE_COST, RoomCreate);
    InsertRoomKeeps(db1, owner, pref, capacity, now);
    EvolvesTransitive(db, db1, InsertRoom(db1, owner, pref, capacity, now));
  }

  lemma CreateKeeps(db: Db, owner: UserId, pref: Pref, capacity: int, conflict: Option<Error>, now: real)
    requires DbInv(db)
    ensures var (db', res) := CreateRoom(db, owner, pref, capacity, conflict, now);
            && DbInv(db') && Evolves(db, db')
            && (res.Ok? <==> owner in db.users && ActiveRoom(db, owner) == None && conflict == None
                             && ROOM_CREATE_COST <= INITIAL_COINS + Sum(db.ledger, owner))
            && (res.Err? ==> db' == db)
            && (res.Ok? ==> Created(db, db', owner, res.value, pref) && Counted(db, db', owner, Other))
  {
    hide Post, InsertRoom, Created, Counted, RoomInv, Sum, Count;
    var (db', res) := CreateRoom(db, owner, pref, capacity, conflict, now);
    if res.Ok? {
      PaidInsertKeeps(db, owner, pref, Clamp(capacity), now);
    }
  }

  /** A departure leaves the room either deleted and empty or with two members at least. */
  lemma DepartKeeps(db: Db, r: RoomId, u: UserId)
    requires DbInv(db) && ActiveRoom(db, u) == Some(r) && r in db.rooms && db.rooms[r].owner != u
    ensures var (db', d) := Depart(db, r, u);
            && DbInv(db') && Evolves(db, db') && OnlyRoom(db, db', r)
            && ActiveRoom(db', u) == None
            && d.remaining == MembersOf(db, r) - {u}
            && (d.autoDeleted ==> db'.rooms[r].status == Deleted && MembersOf(db', r) == {}
                                  && d.remaining == {db.rooms[r].owner})
            && (!d.autoDeleted ==> db'.rooms == db.rooms && MembersOf(db', r) == d.remaining && |d.remaining| >= 2)
  {
    hide LedgerInv;
    ActiveIffMember(db, u, r);
    var (db', d) := Depart(db, r, u);
    var db1 := RemoveMember(db, r, u);
    assert OnlyRoom(db, db1, r) by {
      forall v ensures ActiveRoom(db1, v) ==
          if IsMember(db1, r, v) then Some(r) else if IsMember(db, r, v) then None else ActiveRoom(db, v)
      { ActiveIffMember(db, v, r); }
    }
    assert RoomOk(db, r) && db.rooms[r].owner in MembersOf(db1, r);
    if d.autoDeleted {
      var o := db.rooms[r].owner;
      assert d.remaining == {o} by {
        assert |d.remaining - {o}| == 0;
      }
      assert OnlyRoom(db, db', r) by {
        forall v ensures ActiveRoom(db', v) ==
            if IsMember(db', r, v) then Some(r) else if IsMember(db, r, v) then None else ActiveRoom(db, v)
        { ActiveIffMember(db, v, r); }
      }
    }
    OnlyRoomKeeps(db, db', r);
  }

  lemma LeaveKeeps(db: Db, u: UserId)
    requires DbInv(db)
    ensures var (db', res) := LeaveRoom(db, u);
            && DbInv(db') && Evolves(db, db')
            && (res.Err? ==> db' == db)
            && (res.Err? <==> ActiveRoom(db, u) == None || db.rooms[ActiveRoom(db, u).value].owner == u)
            && (res.Ok? ==> && ActiveRoom(db, u) == Some(res.value.room)
                            && (db', res.value) == Depart(db, res.value.room, u))
  {
    if ActiveRoom(db, u).Some? {
      var r := ActiveRoom(db, u).value;
      ActiveIffMember(db, u, r);
      if db.rooms[r].owner != u { DepartKeeps(db, r, u); }
    }
  }

  lemma KickKeeps(db: Db, owner: UserId, target: UserId)
    requires DbInv(db)
    ensures var (db', res) := KickMember(db, owner, target);
            && DbInv(db') && Evolves(db, db')
            && (res.Err? ==> db' == db)
            && (res.Ok? <==> && ActiveRoom(db, owner).Some? && ActiveRoom(db, target) == ActiveRoom(db, owner)
                             && target != owner && db.rooms[ActiveRoom(db, owner).value].owner == owner)
            && (res.Ok? ==> && ActiveRoom(db, owner) == Some(res.value.room)
                            && (db', res.value) == Depart(db, res.value.room, target))
  {
    if ActiveRoom(db, owner).Some? {
      var r := ActiveRoom(db, owner).value;
      ActiveIffMember(db, owner, r);
      if db.rooms[r].owner == owner != target && ActiveRoom(db, target) == Some(r) { DepartKeeps(db, r, target); }
    }
  }

  lemma DeleteKeeps(db: Db, owner: UserId)
    requires DbInv(db)
    ensures var (db', res) := DeleteRoom(db, owner);
            && DbInv(db') && Evolves(db, db')
            && (res.Err? ==> db' == db)
            && (res.Ok? <==> exists r :: ActiveRoom(db, owner) == Some(r) && db.rooms[r].owner == owner)
            && (res.Ok? ==> && ActiveRoom(db, owner) == Some(res.value.room) && OnlyRoom(db, db', res.value.room)
                            && res.value.members == MembersOf(db, res.value.room)
                            && db'.rooms[res.value.room].status == Deleted && MembersOf(db', res.value.room) == {})
  {
    var (db', res) := DeleteRoom(db, owner);
    if ActiveRoom(db, owner).Some? { ActiveIffMember(db, owner, ActiveRoom(db, owner).value); }
    if res.Ok? {
      var r := res.value.room;
      assert OnlyRoom(db, db', r) by {
        forall v ensures ActiveRoom(db', v) ==
            if IsMember(db', r, v) then Some(r) else if IsMember(db, r, v) then None else ActiveRoom(db, v)
        { ActiveIffMember(db, v, r); }
      }
      OnlyRoomKeeps(db, db', r);
    }
  }

  /** A ban never deletes a room. It frees the banned member, but leaves a banned owner
      a member of the closed room. */
  lemma BanKeeps(db: Db, u: UserId)
    requires DbInv(db)
    ensures var (db', out) := RemoveBanned(db, u);
            && DbInv(db') && Evolves(db, db')
            && (out == None <==> ActiveRoom(db, u) == None)
            && (out == None ==> db' == db)
            && (out.Some? ==> var r := ActiveRoom(db, u).value;
                  && OnlyRoom(db, db', r) && db'.rooms[r].status != Deleted
                  && (out.value == OwnerBanned <==> db.rooms[r].owner == u)
                  && (out.value == OwnerBanned ==> MembersOf(db', r) == MembersOf(db, r) && db'.rooms[r].status == Closed)
                  && (out.value != OwnerBanned ==> MembersOf(db', r) == MembersOf(db, r) - {u})
                  && (out.value == MemberBannedLast ==> db'.rooms[r].status == Closed && |MembersOf(db', r)| == 1)
                  && (out.value == MemberBanned ==> db'.rooms == db.rooms && |MembersOf(db', r)| >= 2))
  {
    var (db', out) := RemoveBanned(db, u);
    if ActiveRoom(db, u).Some? {
      var r := ActiveRoom(db, u).value;
      ActiveIffMember(db, u, r);
      forall v ensures ActiveRoom(db', v) ==
          if IsMember(db', r, v) then Some(r) else if IsMember(db, r, v) then None else ActiveRoom(db, v)
      { ActiveIffMember(db, v, r); }
      assert OnlyRoom(db, db', r);
      assert db.rooms[r].owner in MembersOf(db', r);
      OnlyRoomKeeps(db, db', r);
    }
  }

  lemma SetOpenKeeps(db: Db, owner: UserId, isOpen: bool)
    requires DbInv(db)
    ensures var (db', res) := SetRoomOpen(db, owner, isOpen);
            && DbInv(db') && Evolves(db, db')
            && (res.Err? ==> db' == db)
            && (res.Ok? <==> exists r :: ActiveRoom(db, owner) == Some(r) && db.rooms[r].owner == owner)
            && (res.Ok? ==> && ActiveRoom(db, owner) == Some(res.value.room) && OnlyRoom(db, db', res.value.room)
                            && res.value.members == MembersOf(db, res.value.room) == MembersOf(db', res.value.room)
                            && db'.users == db.users
                            && db'.rooms[res.value.room].status == (if isOpen then Open else Closed))
  {
    var (db', res) := SetRoomOpen(db, owner, isOpen);
    if ActiveRoom(db, owner).Some? {
      var r := ActiveRoom(db, owner).value;
      ActiveIffMember(db, owner, r);
      if res.Ok? {
        forall v ensures ActiveRoom(db', v) ==
            if IsMember(db', r, v) then Some(r) else if IsMember(db, r, v) then None else ActiveRoom(db, v)
        { ActiveIffMember(db, v, r); }
        assert OnlyRoom(db, db', r);
        OnlyRoomKeeps(db, db', r);
      }
    }
  }
}
