/** The Postgres tables, changed in place by one transaction at a time. */
module PostgresTables {
  import opened Basics
  import opened Ledger
  import opened Database
  import opened RoomHandlers
  import opened NoMissedRoomRuns

  class Postgres {
    var users: map<UserId, Account>
    var rooms: map<RoomId, Room>
    var members: map<RoomId, set<UserId>>
    var nextId: RoomId
    var ledger: seq<Txn>

    function Model(): Db reads this {
      Db(users, rooms, members, nextId, ledger)
    }

    constructor ()
      ensures Model() == Db(map[], map[], map[], 1, [])
    {
      users, rooms, members, nextId, ledger := map[], map[], map[], 1, [];
    }

    // -------------------------------------------------------------- coins

    method GetOrCreateUser(u: UserId)
      modifies this
      ensures Model() == AddUser(old(Model()), u)
    {
      if u in users { return; }
      users := users[u := Account(INITIAL_COINS, None)];
    }

    method DeductCoins(u: UserId, amount: nat, reason: Reason) returns (balance: Option<int>)
      modifies this
      ensures balance.Some? <==> Deduct(old(Model()), u, amount, reason).Some?
      ensures Model() == if balance.Some? then Deduct(old(Model()), u, amount, reason).value else old(Model())
      ensures balance.Some? ==> u in users && balance.value == users[u].coins
    {
      if u !in users || users[u].coins < amount { return None; }
      users := users[u := users[u].(coins := users[u].coins - amount)];
      ledger := ledger + [Txn(u, 0 - amount, reason)];
      return Some(users[u].coins);
    }

    method RefundCoins(u: UserId, amount: nat, reason: Reason)
      modifies this
      ensures Model() == Refund(old(Model()), u, amount, reason)
    {
      if u !in users { return; }
      users := users[u := users[u].(coins := users[u].coins + amount)];
      ledger := ledger + [Txn(u, amount, reason)];
    }

    /** The search for an earlier entry of the same reason. */
    method BonusPaid(inviter: UserId, invitee: UserId) returns (paid: bool)
      ensures paid <==> Count(ledger, inviter, Bonus(invitee)) > 0
    {
      paid := false;
      for i := 0 to |ledger|
        invariant paid <==> Count(ledger[..i], inviter, Bonus(invitee)) > 0
      {
        assert ledger[..i + 1][..i] == ledger[..i];
        if ledger[i].user == inviter && ledger[i].reason == ReferralBonus(invitee) { paid := true; }
      }
      assert ledger[..|ledger|] == ledger;
    }

    method GrantReferralBonus(inviter: UserId, invitee: UserId)
      modifies this
      ensures Model() == GrantReferral(old(Model()), inviter, invitee)
    {
      if inviter !in users { return; }
      var existing := BonusPaid(inviter, invitee);
      if existing { return; }
      users := users[inviter := users[inviter].(coins := users[inviter].coins + REFERRAL_BONUS)];
      ledger := ledger + [Txn(inviter, REFERRAL_BONUS, ReferralBonus(invitee))];
    }

    // -------------------------------------------------------------- queries

    /** The oldest open room with a free place whose preference agrees with the filter. */
    method FindOpenRoomForJoin(filter: Pref) returns (pick: Option<RoomId>)
      ensures IsSearchResult(Model(), filter, pick)
    {
      pick := None;
      var todo := rooms.Keys;
      while exists r :: r in todo
        invariant todo <= rooms.Keys
        invariant pick.Some? ==> Suitable(Model(), filter, pick.value)
        invariant forall r | Suitable(Model(), filter, r) ::
          r in todo || (pick.Some? && rooms[pick.value].createdAt <= rooms[r].createdAt)
        decreases todo
      {
        var r :| r in todo;
        todo := todo - {r};
        var count := |MembersOf(Model(), r)|;
        if rooms[r].status == Open && PrefsAgree(filter, rooms[r].pref) && count < rooms[r].capacity {
          if pick.None? || rooms[r].createdAt < rooms[pick.value].createdAt { pick := Some(r); }
        }
      }
    }

    method ListOpenRoomIdsWithSpareCapacity() returns (ids: seq<RoomId>)
      ensures ListsSpareRooms(Model(), ids)
      ensures forall r | r in ids :: HasSpace(Model(), r)
    {
      ids := [];
      var todo := rooms.Keys;
      while exists r :: r in todo
        invariant todo <= rooms.Keys
        invariant forall r | HasSpace(Model(), r) :: r in todo || r in ids
        invariant forall r | r in ids :: HasSpace(Model(), r)
        decreases todo
      {
        var r :| r in todo;
        todo := todo - {r};
        if rooms[r].status == Open && |MembersOf(Model(), r)| < rooms[r].capacity { ids := ids + [r]; }
      }
    }

    // -------------------------------------------------------------- room transactions

    method CreateChatRoom(owner: UserId, pref: Pref, capacity: int, conflict: Option<Error>, now: real) returns (res: Result<RoomId>)
      modifies this
      ensures (Model(), res) == CreateRoom(old(Model()), owner, pref, capacity, conflict, now)
    {
      var clamped := if capacity > 5 then 5 else capacity;
      clamped := if clamped < 2 then 2 else clamped;
      if owner !in users { return Err(NotFound); }
      if users[owner].activeRoom.Some? { return Err(HasActiveRoom); }
      if conflict.Some? { return Err(conflict.value); }
      if users[owner].coins < ROOM_CREATE_COST { return Err(InsufficientCoins); }
      users := users[owner := users[owner].(coins := users[owner].coins - ROOM_CREATE_COST)];
      ledger := ledger + [Txn(owner, -ROOM_CREATE_COST, RoomCreate)];
      var r := nextId;
      nextId := r + 1;
      rooms := rooms[r := Room(owner, pref, clamped, Open, now)];
      members := members[r := MembersOf(Model(), r) + {owner}];
      users := users[owner := users[owner].(activeRoom := Some(r))];
      return Ok(r);
    }

    method JoinChatRoom(u: UserId, r: RoomId, conflict: Option<Error>) returns (res: Result<RoomId>)
      modifies this
      ensures (Model(), res) == JoinRoom(old(Model()), u, r, conflict)
    {
      if r !in rooms { return Err(NotFound); }
      if rooms[r].status != Open { return Err(RoomNotOpen); }
      if u !in users { return Err(NotFound); }
      if users[u].activeRoom.Some? { return Err(HasActiveRoom); }
      if conflict.Some? { return Err(conflict.value); }
      if |MembersOf(Model(), r)| >= rooms[r].capacity { return Err(RoomFull); }
      members := members[r := MembersOf(Model(), r) + {u}];
      users := users[u := users[u].(activeRoom := Some(r))];
      return Ok(r);
    }

    /** The loop that frees the members of a room being deleted. */
    method FreeMembers(ids: set<UserId>)
      modifies this`users
      ensures users == map u | u in old(users) :: if u in ids then old(users)[u].(activeRoom := None) else old(users)[u]
    {
      ghost var was := users;
      var todo := ids;
      while todo != {}
        invariant todo <= ids
        invariant users == map u | u in was :: if u in ids - todo then was[u].(activeRoom := None) else was[u]
        decreases todo
      {
        var u :| u in todo;
        if u in users { users := users[u := users[u].(activeRoom := None)]; }
        todo := todo - {u};
      }
    }

    /** What leaving and kicking share. */
    method RemoveRow(r: RoomId, u: UserId) returns (d: Departure)
      requires r in rooms && u in users
      modifies this
      ensures (Model(), d) == Depart(old(Model()), r, u)
    {
      members := members[r := MembersOf(Model(), r) - {u}];
      users := users[u := users[u].(activeRoom := None)];
      var remaining := MembersOf(Model(), r);
      var autoDeleted := |remaining| <= 1;
      if autoDeleted {
        rooms := rooms[r := rooms[r].(status := Deleted)];
        FreeMembers(remaining);
        members := members[r := {}];
      }
      d := Departure(r, rooms[r].owner, autoDeleted, remaining);
    }

    method LeaveChatRoom(u: UserId) returns (res: Result<Departure>)
      modifies this
      ensures (Model(), res) == LeaveRoom(old(Model()), u)
    {
      if u !in users || users[u].activeRoom.None? { return Err(NotFound); }
      var r := users[u].activeRoom.value;
      if r !in rooms { return Err(NotFound); }
      if rooms[r].owner == u { return Err(IsOwner); }
      var d := RemoveRow(r, u);
      return Ok(d);
    }

    method DeleteChatRoom(owner: UserId) returns (res: Result<Deletion>)
      modifies this
      ensures (Model(), res) == DeleteRoom(old(Model()), owner)
    {
      if owner !in users || users[owner].activeRoom.None? { return Err(NotFound); }
      var r := users[owner].activeRoom.value;
      if r !in rooms { return Err(NotFound); }
      if rooms[r].owner != owner { return Err(NotOwner); }
      var ids := MembersOf(Model(), r);
      FreeMembers(ids);
      rooms := rooms[r := rooms[r].(status := Deleted)];
      members := members[r := {}];
      return Ok(Deletion(r, ids));
    }

    method KickRoomMember(owner: UserId, target: UserId) returns (res: Result<Departure>)
      modifies this
      ensures (Model(), res) == KickMember(old(Model()), owner, target)
    {
      if owner !in users || users[owner].activeRoom.None? { return Err(NotFound); }
      var r := users[owner].activeRoom.value;
      if r !in rooms { return Err(NotFound); }
      if rooms[r].owner != owner { return Err(NotOwner); }
      if target == owner { return Err(CannotKickSelf); }
      if target !in users || users[target].activeRoom != Some(r) { return Err(NotAMember); }
      var d := RemoveRow(r, target);
      return Ok(d);
    }

    method RemoveBannedUserFromRoom(u: UserId) returns (out: Option<BanOutcome>)
      modifies this
      ensures (Model(), out) == RemoveBanned(old(Model()), u)
    {
      if u !in users || users[u].activeRoom.None? { return None; }
      var r := users[u].activeRoom.value;
      if r !in rooms || rooms[r].status == Deleted { return None; }
      if rooms[r].owner == u {
        rooms := rooms[r := rooms[r].(status := Closed)];
        return Some(OwnerBanned);
      }
      members := members[r := MembersOf(Model(), r) - {u}];
      users := users[u := users[u].(activeRoom := None)];
      var isLastMember := |MembersOf(Model(), r)| <= 1;
      if isLastMember { rooms := rooms[r := rooms[r].(status := Closed)]; }
      return Some(if isLastMember then MemberBannedLast else MemberBanned);
    }

    method SetRoomOpenStatus(owner: UserId, isOpen: bool) returns (res: Result<Deletion>)
      modifies this
      ensures (Model(), res) == SetRoomOpen(old(Model()), owner, isOpen)
    {
      if owner !in users || users[owner].activeRoom.None? { return Err(NotFound); }
      var r := users[owner].activeRoom.value;
      if r !in rooms || rooms[r].status == Deleted { return Err(NotFound); }
      if rooms[r].owner != owner { return Err(NotOwner); }
      rooms := rooms[r := rooms[r].(status := if isOpen then Open else Closed)];
      return Ok(Deletion(r, MembersOf(Model(), r)));
    }
  }
}
