/** The promises of the bot, read off in every state that any run reaches. */
module Guarantees {
  import opened Basics
  import opened Ledger
  import opened Database
  import opened RoomInvariant
  import opened RoomTransactions
  import opened MatchQueue
  import opened World
  import opened RequestHandlers
  import opened WorldInvariant
  import opened BotRuns

  /** Nobody is in a 1:1 chat or its queue and in a room or its queue at the same time;
      partners belong to each other, and nobody is paired while waiting. */
  lemma OneSideOnly(es: seq<Event>, u: UserId)
    requires AllowedRun(EMPTY, es)
    ensures var w := Run(EMPTY, es);
            && !(OnChatSide(w, u) && OnRoomSide(w, u))
            && !(w.pairs.Partner(u).Some? && w.queue.Waiting(u))
            && (w.pairs.Partner(u).Some? ==> w.pairs.Partner(u).value != u && w.pairs.Partner(w.pairs.Partner(u).value) == Some(u))
  {
    hide Run, AllowedRun, DbInv, SeekersInv, RequestsInv, NoMissedMatch, MirrorInv, SearchFees, Queue.Waiting,
      Seekers.Filter, Allowed, Apply;
    EveryReachableStateIsGood(es);
  }

  /** Two strangers start at message count zero. */
  lemma StrangersStartAtZero(es: seq<Event>, u: UserId, v: UserId)
    requires AllowedRun(EMPTY, es)
    requires Run(EMPTY, es).pairs.Partner(u) != Some(v)
    ensures Run(EMPTY, es).pairs.MsgCount(u, v) == 0
  {
    EveryReachableStateIsGood(es);
    hide Run, AllowedRun, DbInv, SeekersInv, RequestsInv, NoMissedMatch, MirrorInv, SearchFees, Exclusive;
  }

  /** Of two waiting users at most one takes anybody. */
  lemma AtMostOneTakesAnybody(es: seq<Event>, u: UserId, v: UserId)
    requires AllowedRun(EMPTY, es)
    requires var q := Run(EMPTY, es).queue; q.Waiting(u) && q.Waiting(v) && u !in q.desired && v !in q.desired
    ensures u == v
  {
    EveryReachableStateIsGood(es);
    hide Run, AllowedRun, DbInv, SeekersInv, RequestsInv, NoMissedMatch, MirrorInv, SearchFees, Exclusive, PairsInv;
    AtMostOneWithoutWish(Run(EMPTY, es).queue, u, v);
  }

  /** Balances are never negative and are what the ledger says; a referral pays once. */
  lemma BooksBalance(es: seq<Event>, u: UserId, invitee: UserId)
    requires AllowedRun(EMPTY, es)
    ensures var db := Run(EMPTY, es).db;
            && (u in db.users ==> 0 <= db.users[u].coins == INITIAL_COINS + Sum(db.ledger, u))
            && Count(db.ledger, u, Bonus(invitee)) <= 1
  {
    EveryReachableStateIsGood(es);
    hide Run, AllowedRun, Sum, Count, RoomInv, SeekersInv, RequestsInv, NoMissedMatch, MirrorInv, SearchFees,
      Exclusive, PairsInv;
  }

  /** No service pays back more often than it charged: gender searches, where a payer flag
      stands for a charge not yet used up, and chat requests, where every charge is one open
      or ended request and just the rejected and expired ones come back. */
  lemma NoCoinIsMinted(es: seq<Event>, u: UserId)
    requires AllowedRun(EMPTY, es)
    ensures var w := Run(EMPTY, es);
            var l, rs := w.db.ledger, w.requests;
            && Count(l, u, SearchRefund) + One(u in w.pairs.payer) <= Count(l, u, SearchFee)
            && Count(l, u, RequestFee) == |rs.OpenIds(u)| + EndCount(rs.log, u, Accepted) + EndCount(rs.log, u, Cancelled)
                                          + EndCount(rs.log, u, Rejected) + EndCount(rs.log, u, Expired)
            && Count(l, u, RequestRefund) == EndCount(rs.log, u, Rejected) + EndCount(rs.log, u, Expired)
            && |rs.OpenIds(u)| <= MAX_OPEN_REQUESTS
  {
    EveryReachableStateIsGood(es);
    hide Run, AllowedRun, Sum, Count, EndCount, DbInv, SeekersInv, NoMissedMatch, MirrorInv, Exclusive, PairsInv;
    assert RequestFeeOk(Run(EMPTY, es).db.ledger, Run(EMPTY, es).requests, u);
  }

  predicate SameLiveOwner(db: Db, r: RoomId, s: RoomId) {
    && r in db.rooms && s in db.rooms && db.rooms[r].owner == db.rooms[s].owner
    && db.rooms[r].status != Deleted && db.rooms[s].status != Deleted
  }

  /** Active rooms and member rows agree; a room never holds more than its two to five
      members; a deleted room is empty, any other holds its owner; an owner has one of these. */
  lemma RoomsAreSound(es: seq<Event>, r: RoomId, s: RoomId, u: UserId)
    requires AllowedRun(EMPTY, es)
    ensures var db := Run(EMPTY, es).db;
            && (ActiveRoom(db, u) == Some(r) <==> IsMember(db, r, u))
            && (r in db.rooms ==> 2 <= db.rooms[r].capacity <= 5 && |MembersOf(db, r)| <= db.rooms[r].capacity)
            && (r in db.rooms && db.rooms[r].status == Deleted ==> MembersOf(db, r) == {})
            && (r in db.rooms && db.rooms[r].status != Deleted ==> IsMember(db, r, db.rooms[r].owner))
            && (SameLiveOwner(db, r, s) ==> r == s)
  {
    EveryReachableStateIsGood(es);
    hide Run, AllowedRun, LedgerInv, SeekersInv, RequestsInv, NoMissedMatch, MirrorInv, SearchFees, Exclusive, PairsInv;
    var db := Run(EMPTY, es).db;
    ActiveIffMember(db, u, r);
    assert r in db.rooms ==> RoomOk(db, r);
    if SameLiveOwner(db, r, s) { OneLiveRoomPerOwner(db, r, s); }
  }

  /** The mirror names no room its user is not in, and switches no keyboard off for nothing. */
  lemma MirrorTellsNoLies(es: seq<Event>, u: UserId)
    requires AllowedRun(EMPTY, es)
    ensures var w := Run(EMPTY, es);
            && (u in w.mirror.room ==> ActiveRoom(w.db, u) == Some(w.mirror.room[u]))
            && (u in w.mirror.suppressed ==> ActiveRoom(w.db, u).Some?)
  {
    EveryReachableStateIsGood(es);
    hide Run, AllowedRun, DbInv, SeekersInv, RequestsInv, NoMissedMatch, SearchFees, Exclusive, PairsInv;
  }

  /** Requests, their queue of pending ones and the sets of their requesters always agree. */
  lemma RequestIndexesAgree(es: seq<Event>, id: string, u: UserId)
    requires AllowedRun(EMPTY, es)
    ensures var rs := Run(EMPTY, es).requests;
            && (id in rs.store <==> id in rs.pending)
            && (id in rs.OpenIds(u) <==> id in rs.store && rs.store[id].requester == u)
  {
    EveryReachableStateIsGood(es);
    hide Run, AllowedRun, DbInv, SeekersInv, NoMissedMatch, MirrorInv, SearchFees, Exclusive, PairsInv, RequestFeeOk;
    assert id in Run(EMPTY, es).requests.store.Keys <==> id in Run(EMPTY, es).requests.pending.Keys;
  }
}
