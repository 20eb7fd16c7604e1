/** What holds in every reachable state of the whole bot. */
module WorldInvariant {
  import opened Basics
  import opened SortedSets
  import opened Ledger
  import opened Database
  import opened RoomInvariant
  import opened MatchQueue
  import opened World
  import opened RequestHandlers

  /** Partners point at each other, nobody is paired with themselves or while waiting,
      and only paired users have exchanged messages. */
  ghost predicate PairsInv(q: Queue, p: Pairs) {
    && (forall a, b | p.Partner(a) == Some(b) :: a != b && p.Partner(b) == Some(a) && !q.Waiting(a))
    && (forall a, b | p.Partner(a) != Some(b) :: p.MsgCount(a, b) == 0)
  }

  /** Nobody is in a 1:1 chat or its queue and in a room or its queue at once. */
  ghost predicate Exclusive(w: World) {
    forall u :: !(OnChatSide(w, u) && OnRoomSide(w, u))
  }

  function One(b: bool): nat {
    if b then 1 else 0
  }

  /** Gender searches give back no more than was charged: a payer flag stands for a
      charge not yet returned. */
  ghost predicate SearchFees(l: seq<Txn>, payer: set<UserId>) {
    forall u :: Count(l, u, SearchRefund) + One(u in payer) <= Count(l, u, SearchFee)
  }

  function Max(a: int, b: int): int {
    if a < b then b else a
  }

  /** Room searches give back no more than was charged: every pending job, and a seeker
      still waiting, stands for a charge not yet returned. */
  ghost predicate RoomFeeOk(l: seq<Txn>, s: Seekers, u: UserId) {
    Count(l, u, RoomRefund) + Max(|s.Jobs(u)|, One(s.Filter(u).Some?)) <= Count(l, u, RoomFee)
  }

  ghost predicate RoomFees(l: seq<Txn>, s: Seekers) {
    forall u :: RoomFeeOk(l, s, u)
  }

  /** A seeker in a bucket is a known user, waits in no other bucket, and its pending
      jobs, if any, include one for that bucket. */
  ghost predicate Placed(users: set<UserId>, s: Seekers, p: Pref, u: UserId) {
    u in s.Bucket(p) ==> u in users && s.Filter(u) == Some(p) && (s.Jobs(u) != multiset{} ==> p in s.Jobs(u))
  }

  ghost predicate SeekersShape(users: set<UserId>, s: Seekers) {
    (forall p, u :: Placed(users, s, p, u)) && s.jobs.Keys <= users
  }

  ghost predicate SeekersInv(db: Db, s: Seekers) {
    SeekersShape(db.users.Keys, s) && RoomFees(db.ledger, s)
  }

  /** The mirror never names a room its user is not in, and a room keyboard is switched
      off only for users with an active room. */
  ghost predicate MirrorInv(db: Db, m: Mirror) {
    && (forall u | u in m.room :: ActiveRoom(db, u) == Some(m.room[u]))
    && (forall u | u in m.suppressed :: ActiveRoom(db, u).Some?)
  }

  function EndCount(log: seq<Ended>, u: UserId, e: Ending): nat {
    if log == [] then 0 else EndCount(log[..|log| - 1], u, e) + One(log[|log| - 1] == Ended(u, e))
  }

  /** The three indexes agree and nobody exceeds the limit of open requests. */
  ghost predicate RequestIndexes(users: set<UserId>, rs: Requests) {
    && rs.pending.Keys == rs.store.Keys
    && (forall u, id :: id in rs.OpenIds(u) <==> id in rs.store && rs.store[id].requester == u)
    && (forall u :: |rs.OpenIds(u)| <= MAX_OPEN_REQUESTS)
    && (forall id | id in rs.store :: rs.store[id].requester in users && rs.store[id].target != rs.store[id].requester)
  }

  /** Every charge is accounted for by an open request or by one that ended, and just the
      rejected and expired ones were paid back. */
  ghost predicate RequestFeeOk(l: seq<Txn>, rs: Requests, u: UserId) {
    && Count(l, u, RequestFee) == |rs.OpenIds(u)| + EndCount(rs.log, u, Accepted) + EndCount(rs.log, u, Cancelled)
                                  + EndCount(rs.log, u, Rejected) + EndCount(rs.log, u, Expired)
    && Count(l, u, RequestRefund) == EndCount(rs.log, u, Rejected) + EndCount(rs.log, u, Expired)
  }

  ghost predicate RequestsInv(l: seq<Txn>, users: set<UserId>, rs: Requests) {
    RequestIndexes(users, rs) && forall u :: RequestFeeOk(l, rs, u)
  }

  ghost predicate WorldInv(w: World) {
    && DbInv(w.db)
    && NoMissedMatch(w.queue)
    && PairsInv(w.queue, w.pairs)
    && Exclusive(w)
    && SearchFees(w.db.ledger, w.pairs.payer)
    && SeekersInv(w.db, w.seekers)
    && MirrorInv(w.db, w.mirror)
    && RequestsInv(w.db.ledger, w.db.users.Keys, w.requests)
    && (forall u | u in w.pairs.payer :: u in w.db.users)
  }
}
