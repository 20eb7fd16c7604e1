/** What every transaction keeps: the relation between active rooms, member rows and
    room status, and the agreement of balances with the ledger. */
module RoomInvariant {
  import opened Basics
  import opened Ledger
  import opened Database

  ghost predicate RoomOk(db: Db, r: RoomId)
    requires r in db.rooms
  {
    var room := db.rooms[r];
    && r < db.nextId
    && 2 <= room.capacity <= 5
    && |MembersOf(db, r)| <= room.capacity
    && (room.status == Deleted ==> MembersOf(db, r) == {})
    && (room.status != Deleted ==> room.owner in MembersOf(db, r))
  }

  ghost predicate RoomInv(db: Db) {
    && (forall u, r :: ActiveRoom(db, u) == Some(r) <==> IsMember(db, r, u))
    && (forall r | r in db.rooms :: RoomOk(db, r))
    && (forall r, u | IsMember(db, r, u) :: r in db.rooms)
  }

  ghost predicate LedgerInv(db: Db) {
    && (forall u | u in db.users :: 0 <= db.users[u].coins == INITIAL_COINS + Sum(db.ledger, u))
    && (forall u | u !in db.users :: Sum(db.ledger, u) == 0)
    && (forall u, i :: Count(db.ledger, u, Bonus(i)) <= 1)
  }

  ghost predicate DbInv(db: Db) {
    RoomInv(db) && LedgerInv(db)
  }

  /** Users, rooms and ledger entries are never lost; a room keeps what it was created
      with; a deleted room stays deleted. */
  ghost predicate Evolves(db: Db, db': Db) {
    && db.users.Keys <= db'.users.Keys
    && db.ledger <= db'.ledger
    && (forall r | r in db.rooms ::
          && r in db'.rooms
          && db'.rooms[r].(status := db.rooms[r].status) == db.rooms[r]
          && (db.rooms[r].status == Deleted ==> db'.rooms[r].status == Deleted))
  }

  lemma EvolvesTransitive(a: Db, b: Db, c: Db)
    requires Evolves(a, b) && Evolves(b, c)
    ensures Evolves(a, c)
  {
    forall r | r in a.rooms
      ensures r in c.rooms && c.rooms[r].(status := a.rooms[r].status) == a.rooms[r]
      ensures a.rooms[r].status == Deleted ==> c.rooms[r].status == Deleted
    {
      assert r in b.rooms && b.rooms[r].(status := a.rooms[r].status) == a.rooms[r];
      assert c.rooms[r].(status := b.rooms[r].status) == b.rooms[r];
    }
  }

  /** Two databases that differ at most in coins and ledger. */
  ghost predicate SameRooms(db: Db, db': Db) {
    && db'.rooms == db.rooms && db'.members == db.members && db'.nextId == db.nextId
    && db'.users.Keys == db.users.Keys
    && (forall u :: ActiveRoom(db', u) == ActiveRoom(db, u))
  }

  /** Ledger count after one more entry. */
  ghost predicate Counted(db: Db, db': Db, u: UserId, k: Kind) {
    forall v, j :: Count(db'.ledger, v, j) == Count(db.ledger, v, j) + (if v == u && j == k then 1 else 0)
  }

  lemma PostKeeps(db: Db, u: UserId, amount: int, reason: Reason)
    requires DbInv(db) && u in db.users && db.users[u].coins + amount >= 0
    requires KindOf(reason).Bonus? ==> Count(db.ledger, u, KindOf(reason)) == 0
    ensures var db' := Post(db, u, amount, reason);
            DbInv(db') && SameRooms(db, db') && Evolves(db, db') && Counted(db, db', u, KindOf(reason))
  {
    Append(db.ledger, Txn(u, amount, reason));
    hide Sum, Count;
    var db' := Post(db, u, amount, reason);
    assert SameRooms(db, db');
    forall r | r in db'.rooms ensures RoomOk(db', r) { assert RoomOk(db, r) && MembersOf(db', r) == MembersOf(db, r); }
    forall v, r ensures ActiveRoom(db', v) == Some(r) <==> IsMember(db', r, v) {
      assert ActiveRoom(db, v) == Some(r) <==> IsMember(db, r, v);
    }
    forall r, v | IsMember(db', r, v) ensures r in db'.rooms { assert IsMember(db, r, v); }
  }

  /** Charging succeeds exactly when the user exists and can pay, and never overdraws. */
  lemma DeductKeeps(db: Db, u: UserId, amount: nat, reason: Reason)
    requires DbInv(db) && !KindOf(reason).Bonus?
    ensures var d := Deduct(db, u, amount, reason);
            && (d.Some? <==> u in db.users && amount <= INITIAL_COINS + Sum(db.ledger, u))
            && (d.Some? ==> DbInv(d.value) && SameRooms(db, d.value) && Evolves(db, d.value)
                            && Counted(db, d.value, u, KindOf(reason)))
  {
    if Deduct(db, u, amount, reason).Some? { PostKeeps(db, u, 0 - amount, reason); }
  }

  lemma RefundKeeps(db: Db, u: UserId, amount: nat, reason: Reason)
    requires DbInv(db) && !KindOf(reason).Bonus? && u in db.users
    ensures var db' := Refund(db, u, amount, reason);
            DbInv(db') && SameRooms(db, db') && Evolves(db, db') && Counted(db, db', u, KindOf(reason))
  {
    PostKeeps(db, u, amount, reason);
  }

  lemma ReferralKeeps(db: Db, inviter: UserId, invitee: UserId)
    requires DbInv(db)
    ensures var db' := GrantReferral(db, inviter, invitee);
            && DbInv(db') && SameRooms(db, db') && Evolves(db, db')
            && (forall v, k: Kind | !k.Bonus? :: Count(db'.ledger, v, k) == Count(db.ledger, v, k))
  {
    hide Count, Sum, Post;
    if inviter in db.users && Count(db.ledger, inviter, Bonus(invitee)) == 0 {
      PostKeeps(db, inviter, REFERRAL_BONUS, ReferralBonus(invitee));
    }
  }

  /** However often it is granted, one pair of inviter and invitee yields one bonus. */
  lemma ReferralIsIdempotent(db: Db, inviter: UserId, invitee: UserId)
    requires inviter in db.users
    ensures var db' := GrantReferral(db, inviter, invitee);
            GrantReferral(db', inviter, invitee) == db' && Count(db'.ledger, inviter, Bonus(invitee)) >= 1
  {
    Append(db.ledger, Txn(inviter, REFERRAL_BONUS, ReferralBonus(invitee)));
  }

  lemma AddUserKeeps(db: Db, u: UserId)
    requires DbInv(db)
    ensures DbInv(AddUser(db, u)) && Evolves(db, AddUser(db, u))
    ensures forall v :: ActiveRoom(AddUser(db, u), v) == ActiveRoom(db, v)
  {
    var db' := AddUser(db, u);
    forall r | r in db'.rooms ensures RoomOk(db', r) { assert RoomOk(db, r) && MembersOf(db', r) == MembersOf(db, r); }
    forall v, r ensures ActiveRoom(db', v) == Some(r) <==> IsMember(db', r, v) {
      assert ActiveRoom(db, v) == Some(r) <==> IsMember(db, r, v);
    }
    forall r, v | IsMember(db', r, v) ensures r in db'.rooms { assert IsMember(db, r, v); }
  }

  /** A user is active in at most one room and owns at most one room that is not deleted. */
  lemma OneLiveRoomPerOwner(db: Db, r: RoomId, s: RoomId)
    requires RoomInv(db) && r in db.rooms && s in db.rooms
    requires db.rooms[r].owner == db.rooms[s].owner
    requires db.rooms[r].status != Deleted && db.rooms[s].status != Deleted
    ensures r == s
  {
    assert RoomOk(db, r) && RoomOk(db, s);
    assert IsMember(db, r, db.rooms[r].owner) && IsMember(db, s, db.rooms[r].owner);
  }
}
