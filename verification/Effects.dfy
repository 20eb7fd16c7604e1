/** The vocabulary in which effects are told: what one user can see of the state, and what
    stays as it is for everybody else. */
module Effects {
  import opened Basics
  import opened SortedSets
  import opened Ledger
  import opened Database
  import opened RoomInvariant
  import opened MatchQueue
  import opened MatchOrder
  import opened World
  import opened FillOrder

  function Coins(db: Db, u: UserId): int {
    if u in db.users then db.users[u].coins else 0
  }

  /** The coins of nobody but `u` moved, and those by `amount`. */
  ghost predicate OnlyMoves(db: Db, db': Db, u: UserId, amount: int) {
    && db'.users.Keys == db.users.Keys
    && (forall x | x in db.users :: Coins(db', x) == Coins(db, x) + (if x == u then amount else 0))
  }

  ghost predicate NoCoinMoves(db: Db, db': Db) {
    db'.ledger == db.ledger && db'.users.Keys == db.users.Keys && forall x | x in db.users :: Coins(db', x) == Coins(db, x)
  }

  /** One entry in the ledger, the coins it speaks of, and nothing else. */
  ghost predicate Booked(db: Db, db': Db, u: UserId, amount: int, reason: Reason) {
    u in db.users && db'.ledger == db.ledger + [Txn(u, amount, reason)] && OnlyMoves(db, db', u, amount) && SameRooms(db, db')
  }

  lemma PostBooks(db: Db, u: UserId, amount: int, reason: Reason)
    requires u in db.users
    ensures Booked(db, Post(db, u, amount, reason), u, amount, reason)
  {
  }

  lemma DeductBooks(db: Db, u: UserId, amount: nat, reason: Reason)
    ensures Deduct(db, u, amount, reason).Some? <==> CanPay(db, u, amount)
    ensures Deduct(db, u, amount, reason).Some? ==> Booked(db, Deduct(db, u, amount, reason).value, u, 0 - amount, reason)
  {
    if CanPay(db, u, amount) { PostBooks(db, u, 0 - amount, reason); }
  }

  lemma RefundBooks(db: Db, u: UserId, amount: nat, reason: Reason)
    requires u in db.users
    ensures Booked(db, Refund(db, u, amount, reason), u, amount, reason)
  {
    PostBooks(db, u, amount, reason);
  }

  // ---------------------------------------------------------------- the 1:1 side

  predicate Paired(w: World, u: UserId, v: UserId) {
    w.pairs.Partner(u) == Some(v) && w.pairs.Partner(v) == Some(u)
  }

  /** Everybody but `u` and `v` has the partner it had. */
  ghost predicate OthersKeepPartner(w: World, w': World, u: UserId, v: UserId) {
    forall x | x != u && x != v :: w'.pairs.Partner(x) == w.pairs.Partner(x)
  }

  /** Everybody but `u` keeps its place in the 1:1 queue and its wish. */
  ghost predicate OthersKeepPlace(w: World, w': World, u: UserId) {
    forall x | x != u :: Untouched(w.queue, w'.queue, x)
  }

  ghost predicate CountsStay(w: World, w': World) {
    forall a, b :: w'.pairs.MsgCount(a, b) == w.pairs.MsgCount(a, b)
  }

  /** Seekers, mirror and requests are as they were. */
  predicate OnlyChatSide(w: World, w': World) {
    w'.seekers == w.seekers && w'.mirror == w.mirror && w'.requests == w.requests
  }

  // ---------------------------------------------------------------- the room side

  /** Queue, pairs and requests are as they were. */
  predicate OnlyRoomSide(w: World, w': World) {
    w'.queue == w.queue && w'.pairs == w.pairs && w'.requests == w.requests
  }

  /** The user sees the same mirror entry and the same keyboard. */
  predicate SameMirror(m: Mirror, m': Mirror, v: UserId) {
    Get(m'.room, v) == Get(m.room, v) && (v in m'.suppressed <==> v in m.suppressed)
  }

  /** The user waits where it waited, since when it waited, with the jobs it had. */
  ghost predicate SameSeeker(s: Seekers, s': Seekers, v: UserId) {
    (forall p :: Entry(s', p, v) == Entry(s, p, v)) && s'.Jobs(v) == s.Jobs(v) && s'.Filter(v) == s.Filter(v)
  }

  ghost predicate OthersSeekOn(w: World, w': World, u: UserId) {
    forall v | v != u :: SameSeeker(w.seekers, w'.seekers, v)
  }
}
