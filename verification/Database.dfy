/** The Postgres side: accounts, chat rooms, their members, and the transactions on them. */
module Database {
  import opened Basics
  import opened Ledger

  datatype RoomStatus = Open | Closed | Deleted

  datatype Account = Account(coins: int, activeRoom: Option<RoomId>)

  datatype Room = Room(owner: UserId, pref: Pref, capacity: int, status: RoomStatus, createdAt: real)

  /** `members[r]` are the users with a member row for room `r`; `nextId` is the id
      sequence of the room table. */
  datatype Db = Db(users: map<UserId, Account>, rooms: map<RoomId, Room>, members: map<RoomId, set<UserId>>,
                   nextId: RoomId, ledger: seq<Txn>)

  datatype Error = NotFound | HasActiveRoom | InsufficientCoins | In1to1 | InQueue | RoomNotOpen | RoomFull
                 | IsOwner | NotOwner | CannotKickSelf | NotAMember

  datatype Result<+T> = Ok(value: T) | Err(error: Error)

  // ---------------------------------------------------------------- reading

  function ActiveRoom(db: Db, u: UserId): Option<RoomId> {
    if u in db.users then db.users[u].activeRoom else None
  }

  function MembersOf(db: Db, r: RoomId): set<UserId> {
    if r in db.members then db.members[r] else {}
  }

  predicate IsMember(db: Db, r: RoomId, u: UserId) {
    u in MembersOf(db, r)
  }

  predicate IsOpen(db: Db, r: RoomId) {
    r in db.rooms && db.rooms[r].status == Open
  }

  /** An open room with fewer member rows than its capacity. */
  predicate HasSpace(db: Db, r: RoomId) {
    IsOpen(db, r) && |MembersOf(db, r)| < db.rooms[r].capacity
  }

  // ---------------------------------------------------------------- coins

  function Post(db: Db, u: UserId, amount: int, reason: Reason): Db
    requires u in db.users
  {
    db.(users := db.users[u := db.users[u].(coins := db.users[u].coins + amount)],
        ledger := db.ledger + [Txn(u, amount, reason)])
  }

  predicate CanPay(db: Db, u: UserId, amount: nat) {
    u in db.users && db.users[u].coins >= amount
  }

  function Deduct(db: Db, u: UserId, amount: nat, reason: Reason): Option<Db> {
    if u !in db.users || db.users[u].coins < amount then None else Some(Post(db, u, 0 - amount, reason))
  }

  function Refund(db: Db, u: UserId, amount: nat, reason: Reason): Db {
    if u !in db.users then db else Post(db, u, amount, reason)
  }

  /** The bonus is given once per invitee, as the ledger itself tells. */
  function GrantReferral(db: Db, inviter: UserId, invitee: UserId): Db {
    if inviter !in db.users || Count(db.ledger, inviter, Bonus(invitee)) > 0 then db
    else Post(db, inviter, REFERRAL_BONUS, ReferralBonus(invitee))
  }

  function AddUser(db: Db, u: UserId): Db {
    if u in db.users then db else db.(users := db.users[u := Account(INITIAL_COINS, None)])
  }

  // ---------------------------------------------------------------- rooms

  function SetActive(db: Db, u: UserId, r: Option<RoomId>): Db
    requires u in db.users
  {
    db.(users := db.users[u := db.users[u].(activeRoom := r)])
  }

  function SetStatus(db: Db, r: RoomId, s: RoomStatus): Db
    requires r in db.rooms
  {
    db.(rooms := db.rooms[r := db.rooms[r].(status := s)])
  }

  function AddMember(db: Db, r: RoomId, u: UserId): Db
    requires u in db.users
  {
    SetActive(db, u, Some(r)).(members := db.members[r := MembersOf(db, r) + {u}])
  }

  function RemoveMember(db: Db, r: RoomId, u: UserId): Db
    requires u in db.users
  {
    SetActive(db, u, None).(members := db.members[r := MembersOf(db, r) - {u}])
  }

  /** Marks the room deleted, frees all its members and drops their rows, at once. */
  function Dissolve(db: Db, r: RoomId): Db
    requires r in db.rooms
  {
    db.(users := map u | u in db.users ::
          if u in MembersOf(db, r) then db.users[u].(activeRoom := None) else db.users[u],
        rooms := db.rooms[r := db.rooms[r].(status := Deleted)],
        members := db.members[r := {}])
  }

  function Clamp(capacity: int): int {
    if capacity < 2 then 2 else if capacity > 5 then 5 else capacity
  }

  function InsertRoom(db: Db, owner: UserId, pref: Pref, capacity: int, now: real): Db
    requires owner in db.users
  {
    var r := db.nextId;
    AddMember(db.(rooms := db.rooms[r := Room(owner, pref, capacity, Open, now)], nextId := r + 1), r, owner)
  }

  /** `conflict` is the verdict of the injected check, read under the row lock. */
  function CreateRoom(db: Db, owner: UserId, pref: Pref, capacity: int, conflict: Option<Error>, now: real): (Db, Result<RoomId>) {
    if owner !in db.users then (db, Err(NotFound))
    else if db.users[owner].activeRoom.Some? then (db, Err(HasActiveRoom))
    else if conflict.Some? then (db, Err(conflict.value))
    else if db.users[owner].coins < ROOM_CREATE_COST then (db, Err(InsufficientCoins))
    else
      (InsertRoom(Post(db, owner, -ROOM_CREATE_COST, RoomCreate), owner, pref, Clamp(capacity), now), Ok(db.nextId))
  }

  function JoinRoom(db: Db, u: UserId, r: RoomId, conflict: Option<Error>): (Db, Result<RoomId>) {
    if r !in db.rooms then (db, Err(NotFound))
    else if db.rooms[r].status != Open then (db, Err(RoomNotOpen))
    else if u !in db.users then (db, Err(NotFound))
    else if db.users[u].activeRoom.Some? then (db, Err(HasActiveRoom))
    else if conflict.Some? then (db, Err(conflict.value))
    else if |MembersOf(db, r)| >= db.rooms[r].capacity then (db, Err(RoomFull))
    else (AddMember(db, r, u), Ok(r))
  }

  datatype Departure = Departure(room: RoomId, owner: UserId, autoDeleted: bool, remaining: set<UserId>)

  /** A member's row goes; a room left with at most one member is dissolved. */
  function Depart(db: Db, r: RoomId, u: UserId): (Db, Departure)
    requires r in db.rooms && u in db.users
  {
    var db1 := RemoveMember(db, r, u);
    var rest := MembersOf(db1, r);
    var gone := |rest| <= 1;
    (if gone then Dissolve(db1, r) else db1, Departure(r, db.rooms[r].owner, gone, rest))
  }

  function LeaveRoom(db: Db, u: UserId): (Db, Result<Departure>) {
    match ActiveRoom(db, u)
    case None => (db, Err(NotFound))
    case Some(r) =>
      if r !in db.rooms then (db, Err(NotFound))
      else if db.rooms[r].owner == u then (db, Err(IsOwner))
      else var (db', d) := Depart(db, r, u); (db', Ok(d))
  }

  datatype Deletion = Deletion(room: RoomId, members: set<UserId>)

  function DeleteRoom(db: Db, owner: UserId): (Db, Result<Deletion>) {
    match ActiveRoom(db, owner)
    case None => (db, Err(NotFound))
    case Some(r) =>
      if r !in db.rooms then (db, Err(NotFound))
      else if db.rooms[r].owner != owner then (db, Err(NotOwner))
      else (Dissolve(db, r), Ok(Deletion(r, MembersOf(db, r))))
  }

  function KickMember(db: Db, owner: UserId, target: UserId): (Db, Result<Departure>) {
    match ActiveRoom(db, owner)
    case None => (db, Err(NotFound))
    case Some(r) =>
      if r !in db.rooms then (db, Err(NotFound))
      else if db.rooms[r].owner != owner then (db, Err(NotOwner))
      else if target == owner then (db, Err(CannotKickSelf))
      else if ActiveRoom(db, target) != Some(r) then (db, Err(NotAMember))
      else var (db', d) := Depart(db, r, target); (db', Ok(d))
  }

  datatype BanOutcome = OwnerBanned | MemberBannedLast | MemberBanned

  /** A banned owner's room is closed and keeps its members, the owner among them;
      a banned member leaves, and the room is closed if only the owner remains. */
  function RemoveBanned(db: Db, u: UserId): (Db, Option<BanOutcome>) {
    match ActiveRoom(db, u)
    case None => (db, None)
    case Some(r) =>
      if r !in db.rooms || db.rooms[r].status == Deleted then (db, None)
      else if db.rooms[r].owner == u then (SetStatus(db, r, Closed), Some(OwnerBanned))
      else
        var db1 := RemoveMember(db, r, u);
        if |MembersOf(db1, r)| <= 1 then (SetStatus(db1, r, Closed), Some(MemberBannedLast))
        else (db1, Some(MemberBanned))
  }

  function SetRoomOpen(db: Db, owner: UserId, isOpen: bool): (Db, Result<Deletion>) {
    match ActiveRoom(db, owner)
    case None => (db, Err(NotFound))
    case Some(r) =>
      if r !in db.rooms || db.rooms[r].status == Deleted then (db, Err(NotFound))
      else if db.rooms[r].owner != owner then (db, Err(NotOwner))
      else (SetStatus(db, r, if isOpen then Open else Closed), Ok(Deletion(r, MembersOf(db, r))))
  }
}
