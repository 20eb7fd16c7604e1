/** What chat requests, accounts and bookings mean to the people involved. */
module RequestOutcomes {
  import opened Basics
  import opened SortedSets
  import opened Ledger
  import opened Database
  import opened RoomInvariant
  import opened MatchQueue
  import opened MatchOrder
  import opened World
  import opened RequestHandlers
  import opened WorldInvariant
  import opened RoomSteps
  import opened RequestSteps
  import opened Effects

  // ---------------------------------------------------------------- accounts

  /** A new user starts with ten coins and without a room; a known one stays as it is. */
  ghost predicate JoinMeans(w: World, w': World, u: UserId) {
    && w' == w.(db := w.db.(users := w'.db.users)) && w'.db.users.Keys == w.db.users.Keys + {u}
    && (forall x | x in w.db.users :: w'.db.users[x] == w.db.users[x])
    && (u !in w.db.users ==> Coins(w'.db, u) == INITIAL_COINS && ActiveRoom(w'.db, u) == None)
  }

  lemma JoinsOutcome(w: World, u: UserId)
    ensures JoinMeans(w, w.(db := AddUser(w.db, u)), u)
  {
  }

  /** A referral is rewarded with five coins once for each pair of inviter and invitee. */
  ghost predicate ReferralMeans(db: Db, db': Db, inviter: UserId, invitee: UserId) {
    if inviter in db.users && Count(db.ledger, inviter, Bonus(invitee)) == 0
    then Booked(db, db', inviter, REFERRAL_BONUS, ReferralBonus(invitee)) else db' == db
  }

  lemma ReferralOutcome(db: Db, inviter: UserId, invitee: UserId)
    ensures ReferralMeans(db, GrantReferral(db, inviter, invitee), inviter, invitee)
  {
    if inviter in db.users { PostBooks(db, inviter, REFERRAL_BONUS, ReferralBonus(invitee)); }
    hide Post, Booked, Count;
  }

  // ---------------------------------------------------------------- chat requests

  /** Requests other than `id` are as open as they were. */
  ghost predicate OthersStayOpen(rs: Requests, rs': Requests, id: string) {
    forall j | j != id :: Get(rs'.store, j) == Get(rs.store, j) && Get(rs'.pending, j) == Get(rs.pending, j)
                          && forall u :: j in rs'.OpenIds(u) <==> j in rs.OpenIds(u)
  }

  ghost predicate Opened(rs: Requests, rs': Requests, id: string, requester: UserId, target: UserId, now: real) {
    && Get(rs'.store, id) == Some(Request(requester, target)) && Get(rs'.pending, id) == Some(now)
    && (forall u :: rs'.OpenIds(u) == rs.OpenIds(u) + (if u == requester then {id} else {}))
    && OthersStayOpen(rs, rs', id) && rs'.log == rs.log
  }

  ghost predicate Closed(rs: Requests, rs': Requests, id: string, ending: Ending)
    requires id in rs.store
  {
    && id !in rs'.store && id !in rs'.pending && (forall u :: rs'.OpenIds(u) == rs.OpenIds(u) - {id})
    && OthersStayOpen(rs, rs', id) && rs'.log == rs.log + [Ended(rs.store[id].requester, ending)]
  }

  lemma CloseOutcome(users: set<UserId>, rs: Requests, id: string, ending: Ending)
    requires RequestIndexes(users, rs) && id in rs.store
    ensures Closed(rs, CloseRequest(rs, id, ending), id, ending)
  {
    var rs' := CloseRequest(rs, id, ending);
    forall u ensures rs'.OpenIds(u) == rs.OpenIds(u) - {id} {
      assert id in rs.OpenIds(u) <==> rs.store[id].requester == u;
    }
  }

  lemma OpenOutcome(rs: Requests, id: string, requester: UserId, target: UserId, now: real)
    ensures Opened(rs, CreateRequest(rs, id, requester, target, now), id, requester, target, now)
  {
  }

  /** Who may send a request. */
  predicate MaySend(w: World, requester: UserId, target: UserId, reachable: bool) {
    && target != requester && reachable && |w.requests.OpenIds(requester)| < MAX_OPEN_REQUESTS
    && w.pairs.Partner(requester) == None && w.pairs.Partner(target) == None && !OnRoomSide(w, requester)
    && CanPay(w.db, requester, CHAT_COST)
  }

  /** A request costs two coins and is open afterwards; otherwise nothing happens. */
  ghost predicate SendMeans(w: World, w': World, id: string, requester: UserId, target: UserId, reachable: bool, now: real) {
    if MaySend(w, requester, target, reachable)
    then && Opened(w.requests, w'.requests, id, requester, target, now)
         && Booked(w.db, w'.db, requester, 0 - CHAT_COST, RequestCost) && w' == w.(db := w'.db, requests := w'.requests)
    else w' == w
  }

  lemma SendOutcome(w: World, id: string, requester: UserId, target: UserId, reachable: bool, now: real)
    requires id !in w.requests.store
    ensures SendMeans(w, SendRequest(w, id, requester, target, reachable, now), id, requester, target, reachable, now)
  {
    DeductBooks(w.db, requester, CHAT_COST, RequestCost);
    OpenOutcome(w.requests, id, requester, target, now);
    hide OnRoomSide, Deduct, Booked, CreateRequest, Opened, Requests.OpenIds;
  }

  predicate Busy(w: World, u: UserId) {
    OnChatSide(w, u) || OnRoomSide(w, u)
  }

  /** Accepting pairs two free users and costs nothing; if either is taken the request just
      goes, and the fee is lost. */
  ghost predicate AcceptMeans(w: World, w': World, id: string, acceptor: UserId) {
    if id !in w.requests.store then w' == w else
      var r := w.requests.store[id].requester;
      && w'.db == w.db && w'.seekers == w.seekers && w'.mirror == w.mirror
      && (Busy(w, acceptor) || Busy(w, r) ==>
            w'.pairs == w.pairs && w'.queue == w.queue && Closed(w.requests, w'.requests, id, Cancelled))
      && (!Busy(w, acceptor) && !Busy(w, r) ==>
            && Paired(w', acceptor, r) && OthersKeepPartner(w, w', acceptor, r) && w'.pairs.payer == w.pairs.payer
            && CountsStay(w, w') && (forall x | x != acceptor && x != r :: Untouched(w.queue, w'.queue, x))
            && !w'.queue.Waiting(acceptor) && !w'.queue.Waiting(r) && Closed(w.requests, w'.requests, id, Accepted))
  }

  lemma AcceptOutcome(w: World, id: string, acceptor: UserId)
    requires WorldInv(w) && (id in w.requests.store ==> acceptor == w.requests.store[id].target)
    ensures AcceptMeans(w, AcceptRequest(w, id, acceptor), id, acceptor)
  {
    hide Sum, Count, DbInv, SeekersInv, MirrorInv, NoMissedMatch, SearchFees, OnRoomSide, CloseRequest, Closed;
    if id in w.requests.store {
      CloseOutcome(w.db.users.Keys, w.requests, id, Cancelled);
      CloseOutcome(w.db.users.Keys, w.requests, id, Accepted);
      NewPair(w.pairs, acceptor, w.requests.store[id].requester);
    }
  }

  lemma NewPair(p: Pairs, u: UserId, v: UserId)
    requires u != v
    ensures var p' := SetPartner(p, u, v);
            && p'.Partner(u) == Some(v) && p'.Partner(v) == Some(u) && (forall x | x != u && x != v :: p'.Partner(x) == p.Partner(x))
            && p'.payer == p.payer && forall a, b :: p'.MsgCount(a, b) == p.MsgCount(a, b)
  {
  }

  /** Rejecting gives the fee back, once; a request no longer open is left alone. */
  ghost predicate RejectMeans(w: World, w': World, id: string) {
    if id in w.requests.store
    then && Booked(w.db, w'.db, w.requests.store[id].requester, CHAT_COST, RequestRejectRefund)
         && Closed(w.requests, w'.requests, id, Rejected) && w' == w.(db := w'.db, requests := w'.requests)
    else w' == w
  }

  lemma RejectOutcome(w: World, id: string)
    requires WorldInv(w)
    ensures RejectMeans(w, RejectRequest(w, id), id)
  {
    hide Sum, Count, DbInv, SeekersInv, MirrorInv, NoMissedMatch, SearchFees, PairsInv, Exclusive;
    if id in w.requests.store {
      CloseOutcome(w.db.users.Keys, w.requests, id, Rejected);
      RefundBooks(w.db, w.requests.store[id].requester, CHAT_COST, RequestRejectRefund);
    } else {
      assert w.requests.store - {id} == w.requests.store && w.requests.pending - {id} == w.requests.pending;
    }
    hide Refund, Booked, CloseRequest, Closed;
  }

  /** Coins of a user and what its open requests still hold. */
  function Worth(w: World, u: UserId): int {
    Coins(w.db, u) + CHAT_COST * |w.requests.OpenIds(u)|
  }

  lemma ExpireOneKeepsWorth(w: World, id: string, u: UserId)
    requires WorldInv(w)
    ensures Worth(ExpireOne(w, id), u) == Worth(w, u)
  {
    hide Sum, Count, RoomInv, LedgerInv, SeekersInv, MirrorInv, NoMissedMatch, SearchFees, PairsInv, Exclusive, RequestFeeOk;
    if id in w.requests.store {
      var r := w.requests.store[id].requester;
      assert id in w.requests.OpenIds(r);
      assert ExpireOne(w, id).requests.OpenIds(u) == if u == r then w.requests.OpenIds(r) - {id} else w.requests.OpenIds(u);
    } else {
      assert ExpireOne(w, id).requests.OpenIds(u) == w.requests.OpenIds(u);
    }
  }

  lemma {:induction false} ExpireEachKeepsWorth(w: World, ids: seq<string>, u: UserId)
    requires WorldInv(w)
    ensures Worth(ExpireEach(w, ids), u) == Worth(w, u)
    decreases |ids|
  {
    hide WorldInv, ExpireOne, Worth;
    if ids != [] {
      ExpireOneKeepsWorth(w, ids[0], u);
      ExpireOneKeeps(w, ids[0]);
      ExpireEachKeepsWorth(ExpireOne(w, ids[0]), ids[1..], u);
    }
  }

  /** The expiry job pays back exactly what the requests it closes had cost. */
  lemma ExpiryPaysBack(w: World, cutoff: real, u: UserId)
    requires WorldInv(w)
    ensures Worth(ExpireRequests(w, cutoff), u) == Worth(w, u)
  {
    hide WorldInv, ExpireOne, Worth;
    ExpiryOneByOne(w, ExpiredIds(w.requests, cutoff));
    ExpireEachKeepsWorth(w, ExpiredIds(w.requests, cutoff), u);
  }

  /** The requests younger than the cutoff stay open, all others are closed and paid back. */
  ghost predicate ExpiryMeans(w: World, w': World, cutoff: real) {
    && (forall id :: Get(w'.requests.store, id)
          == if id in w.requests.pending && w.requests.pending[id] > cutoff then Get(w.requests.store, id) else None)
    && (forall u :: Worth(w', u) == Worth(w, u)) && w' == w.(db := w'.db, requests := w'.requests)
  }

  lemma ExpiryOutcome(w: World, cutoff: real)
    requires WorldInv(w)
    ensures ExpiryMeans(w, ExpireRequests(w, cutoff), cutoff)
  {
    hide WorldInv, Worth;
    assert w.requests.pending.Keys == w.requests.store.Keys by { WorldParts(w); }
    ExpiryIsExact(w, cutoff);
    PopEachKeepsStore(w.requests, ExpiredIds(w.requests, cutoff));
    forall u ensures Worth(ExpireRequests(w, cutoff), u) == Worth(w, u) { ExpiryPaysBack(w, cutoff, u); }
    hide PopEach, RefundEach, ExpiredIds;
  }

  lemma {:induction false} PopEachKeepsStore(rs: Requests, ids: seq<string>)
    ensures forall id | id in PopEach(rs, ids).0.store :: Get(PopEach(rs, ids).0.store, id) == Get(rs.store, id)
    decreases |ids|
  {
    if ids != [] { PopEachKeepsStore(CloseRequest(rs, ids[0], Expired), ids[1..]); }
  }
}
