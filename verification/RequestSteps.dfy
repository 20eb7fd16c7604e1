/** Chat requests and the remaining coin operations keep the world invariant. */
module RequestSteps {
  import opened Basics
  import opened Ledger
  import opened Database
  import opened RoomInvariant
  import opened MatchQueue
  import opened World
  import opened RequestHandlers
  import opened WorldInvariant
  import opened ChatSteps
  import opened RoomSteps

  lemma LogAppend(log: seq<Ended>, x: Ended)
    ensures forall u, e :: EndCount(log + [x], u, e) == EndCount(log, u, e) + One(x == Ended(u, e))
  {
    assert (log + [x])[..|log|] == log;
  }

  predicate PaysBack(e: Ending) {
    e == Rejected || e == Expired
  }

  lemma CreateRequestKeeps(l: seq<Txn>, l': seq<Txn>, users: set<UserId>, rs: Requests, id: string, r: UserId, t: UserId, now: real)
    requires RequestsInv(l, users, rs) && id !in rs.store && r in users && t != r
    requires |rs.OpenIds(r)| < MAX_OPEN_REQUESTS
    requires forall u :: Count(l', u, RequestFee) == Count(l, u, RequestFee) + One(u == r)
    requires SameCount(l, l', RequestRefund)
    ensures RequestsInv(l', users, CreateRequest(rs, id, r, t, now))
  {
    hide Count, EndCount;
    var rs' := CreateRequest(rs, id, r, t, now);
    CreateIndexes(users, rs, id, r, t, now);
    hide RequestIndexes, CreateRequest;
    forall u ensures RequestFeeOk(l', rs', u) { assert RequestFeeOk(l, rs, u); }
  }

  lemma CreateIndexes(users: set<UserId>, rs: Requests, id: string, r: UserId, t: UserId, now: real)
    requires RequestIndexes(users, rs) && id !in rs.store && r in users && t != r
    requires |rs.OpenIds(r)| < MAX_OPEN_REQUESTS
    ensures var rs' := CreateRequest(rs, id, r, t, now);
            && RequestIndexes(users, rs') && rs'.log == rs.log
            && (forall u :: |rs'.OpenIds(u)| == |rs.OpenIds(u)| + One(u == r))
  {
    var rs' := CreateRequest(rs, id, r, t, now);
    assert id !in rs.OpenIds(r);
    assert rs'.OpenIds(r) == rs.OpenIds(r) + {id};
    assert forall u | u != r :: rs'.OpenIds(u) == rs.OpenIds(u);
    forall u ensures |rs'.OpenIds(u)| == |rs.OpenIds(u)| + One(u == r) {}
  }

  lemma CloseRequestKeeps(l: seq<Txn>, l': seq<Txn>, users: set<UserId>, rs: Requests, id: string, e: Ending)
    requires RequestsInv(l, users, rs) && id in rs.store
    requires SameCount(l, l', RequestFee)
    requires forall u :: Count(l', u, RequestRefund) == Count(l, u, RequestRefund) + One(u == rs.store[id].requester && PaysBack(e))
    ensures RequestsInv(l', users, CloseRequest(rs, id, e))
  {
    hide Count, EndCount;
    var r := rs.store[id].requester;
    var rs' := CloseRequest(rs, id, e);
    LogAppend(rs.log, Ended(r, e));
    assert id in rs.OpenIds(r);
    assert forall u :: rs'.OpenIds(u) == if u == r then rs.OpenIds(r) - {id} else rs.OpenIds(u);
    assert forall u :: |rs'.OpenIds(u)| == |rs.OpenIds(u)| - One(u == r);
    forall u ensures RequestFeeOk(l', rs', u) { assert RequestFeeOk(l, rs, u); }
    hide RequestFeeOk;
    assert RequestIndexes(users, rs');
  }

  lemma CloseUnknown(l: seq<Txn>, users: set<UserId>, rs: Requests, id: string, e: Ending)
    requires RequestsInv(l, users, rs) && id !in rs.store
    ensures CloseRequest(rs, id, e) == rs
  {
    assert rs.store - {id} == rs.store && rs.pending - {id} == rs.pending;
  }

  // ---------------------------------------------------------------- handlers

  /** Only coins moved, and none for gender searches or rooms. */
  ghost predicate RequestCoins(db: Db, db': Db) {
    && DbInv(db') && db'.users.Keys == db.users.Keys
    && (forall u :: ActiveRoom(db', u) == ActiveRoom(db, u))
    && SameCount(db.ledger, db'.ledger, RoomFee) && SameCount(db.ledger, db'.ledger, RoomRefund)
    && SameCount(db.ledger, db'.ledger, SearchFee) && SameCount(db.ledger, db'.ledger, SearchRefund)
  }

  lemma RequestSide(w: World, db: Db, rs: Requests)
    requires WorldInv(w) && RequestCoins(w.db, db) && RequestsInv(db.ledger, db.users.Keys, rs)
    ensures WorldInv(w.(db := db, requests := rs))
  {
    hide Count, Sum, NoMissedMatch, PairsInv, DbInv, RequestsInv;
    var w' := w.(db := db, requests := rs);
    forall u ensures !(OnChatSide(w', u) && OnRoomSide(w', u)) { assert !(OnChatSide(w, u) && OnRoomSide(w, u)); }
    SeekersFrame(w.db, db, w.seekers);
  }

  lemma RequestPost(db: Db, u: UserId, amount: int, reason: Reason)
    requires DbInv(db) && u in db.users && db.users[u].coins + amount >= 0
    requires KindOf(reason) == RequestFee || KindOf(reason) == RequestRefund
    ensures RequestCoins(db, Post(db, u, amount, reason)) && Counted(db, Post(db, u, amount, reason), u, KindOf(reason))
  {
    hide Count, Sum;
    PostKeeps(db, u, amount, reason);
  }

  lemma SendRequestKeeps(w: World, id: string, requester: UserId, target: UserId, reachable: bool, now: real)
    requires WorldInv(w) && id !in w.requests.store
    ensures WorldInv(SendRequest(w, id, requester, target, reachable, now))
  {
    hide Count, Sum, NoMissedMatch, PairsInv, DbInv, RequestsInv, CreateRequest;
    var w' := SendRequest(w, id, requester, target, reachable, now);
    if w' != w {
      RequestPost(w.db, requester, 0 - CHAT_COST, RequestCost);
      CreateRequestKeeps(w.db.ledger, w'.db.ledger, w.db.users.Keys, w.requests, id, requester, target, now);
      RequestSide(w, w'.db, w'.requests);
    }
  }

  lemma SettleRequestKeeps(w: World, id: string, e: Ending, reason: Reason)
    requires WorldInv(w) && id in w.requests.store && PaysBack(e) && KindOf(reason) == RequestRefund
    ensures WorldInv(RefundWorld(w.(requests := CloseRequest(w.requests, id, e)), w.requests.store[id].requester, CHAT_COST, reason))
  {
    hide Count, Sum, NoMissedMatch, PairsInv, DbInv, CloseRequest, RequestsInv;
    var r := w.requests.store[id].requester;
    assert r in w.db.users && w.db.users[r].coins >= 0 by { BalanceNotNegative(w, r, id); }
    var db := Refund(w.db, r, CHAT_COST, reason);
    RequestPost(w.db, r, CHAT_COST, reason);
    CloseRequestKeeps(w.db.ledger, db.ledger, w.db.users.Keys, w.requests, id, e);
    RequestSide(w, db, CloseRequest(w.requests, id, e));
  }

  lemma BalanceNotNegative(w: World, u: UserId, id: string)
    requires WorldInv(w) && id in w.requests.store && u == w.requests.store[id].requester
    ensures u in w.db.users && w.db.users[u].coins >= 0
  {
    hide Count, Sum, NoMissedMatch, PairsInv, RoomInv;
  }

  lemma DropRequestKeeps(w: World, id: string, e: Ending)
    requires WorldInv(w) && (id in w.requests.store ==> !PaysBack(e))
    ensures WorldInv(w.(requests := CloseRequest(w.requests, id, e)))
  {
    hide Count, Sum, NoMissedMatch, PairsInv, DbInv, CloseRequest, RequestsInv;
    if id in w.requests.store {
      CloseRequestKeeps(w.db.ledger, w.db.ledger, w.db.users.Keys, w.requests, id, e);
      RequestSide(w, w.db, CloseRequest(w.requests, id, e));
    } else {
      CloseUnknown(w.db.ledger, w.db.users.Keys, w.requests, id, e);
    }
  }

  /** The buttons of a request reach only its target. */
  lemma AcceptRequestKeeps(w: World, id: string, acceptor: UserId)
    requires WorldInv(w) && (id in w.requests.store ==> acceptor == w.requests.store[id].target)
    ensures WorldInv(AcceptRequest(w, id, acceptor))
  {
    hide Count, Sum, NoMissedMatch, DbInv, CloseRequest;
    if id in w.requests.store {
      var r := w.requests.store[id].requester;
      assert acceptor != r;
      hide RequestsInv;
      if OnChatSide(w, acceptor) || OnChatSide(w, r) || OnRoomSide(w, acceptor) || OnRoomSide(w, r) {
        DropRequestKeeps(w, id, Cancelled);
      } else {
        DropRequestKeeps(w, id, Accepted);
        var w1 := w.(requests := CloseRequest(w.requests, id, Accepted));
        var q := Dequeue(Dequeue(w.queue, acceptor), r);
        RemovalKeepsNoMissedMatch(w.queue, q);
        SetPartnerKeeps(w.queue, w.pairs, q, acceptor, r);
        ChatSide(w1, w1.db, q, SetPartner(w.pairs, acceptor, r));
      }
    }
  }

  lemma RejectRequestKeeps(w: World, id: string)
    requires WorldInv(w)
    ensures WorldInv(RejectRequest(w, id))
  {
    hide WorldInv, CloseRequest;
    if id in w.requests.store {
      SettleRequestKeeps(w, id, Rejected, RequestRejectRefund);
    } else {
      DropRequestKeeps(w, id, Rejected);
    }
  }

  lemma ExpireOneKeeps(w: World, id: string)
    requires WorldInv(w)
    ensures WorldInv(ExpireOne(w, id))
  {
    hide WorldInv, CloseRequest;
    if id in w.requests.store {
      SettleRequestKeeps(w, id, Expired, RequestTimeoutRefund);
    } else {
      DropRequestKeeps(w, id, Expired);
    }
  }

  lemma {:induction false} ExpireEachKeeps(w: World, ids: seq<string>)
    requires WorldInv(w)
    ensures WorldInv(ExpireEach(w, ids))
    decreases |ids|
  {
    hide WorldInv, ExpireOne;
    if ids != [] {
      ExpireOneKeeps(w, ids[0]);
      ExpireEachKeeps(ExpireOne(w, ids[0]), ids[1..]);
    }
  }

  lemma ExpireRequestsKeeps(w: World, cutoff: real)
    requires WorldInv(w)
    ensures WorldInv(ExpireRequests(w, cutoff))
  {
    hide WorldInv;
    ExpiryOneByOne(w, ExpiredIds(w.requests, cutoff));
    ExpireEachKeeps(w, ExpiredIds(w.requests, cutoff));
  }

  /** After the job no request created by the cutoff is open, and every other one still is. */
  lemma ExpiryIsExact(w: World, cutoff: real)
    requires WorldInv(w)
    ensures var w' := ExpireRequests(w, cutoff);
            forall id :: id in w'.requests.store <==> id in w.requests.store && w.requests.pending[id] > cutoff
  {
    hide WorldInv;
    assert w.requests.pending.Keys == w.requests.store.Keys by { WorldParts(w); }
    PopEachStore(w.requests, ExpiredIds(w.requests, cutoff));
  }

  lemma {:induction false} PopEachStore(rs: Requests, ids: seq<string>)
    ensures forall id :: id in PopEach(rs, ids).0.store <==> id in rs.store && id !in ids
    decreases |ids|
  {
    if ids != [] {
      PopEachStore(CloseRequest(rs, ids[0], Expired), ids[1..]);
      assert ids == [ids[0]] + ids[1..];
    }
  }

  // ---------------------------------------------------------------- other coin operations

  lemma OtherCoinsKeep(w: World, db: Db)
    requires WorldInv(w) && DbInv(db) && Evolves(w.db, db)
    requires forall u :: ActiveRoom(db, u) == ActiveRoom(w.db, u)
    requires forall u, k | k != Other && !k.Bonus? :: Count(db.ledger, u, k) == Count(w.db.ledger, u, k)
    ensures WorldInv(w.(db := db))
  {
    hide Count, Sum, NoMissedMatch, PairsInv, DbInv;
    forall u
      ensures !(OnChatSide(w.(db := db), u) && OnRoomSide(w.(db := db), u))
    {
      assert !(OnChatSide(w, u) && OnRoomSide(w, u));
    }
    RequestsFrame(w.db.ledger, db.ledger, w.db.users.Keys, db.users.Keys, w.requests);
    SeekersFrame(w.db, db, w.seekers);
  }

  lemma AddUserWorld(w: World, u: UserId)
    requires WorldInv(w)
    ensures WorldInv(w.(db := AddUser(w.db, u)))
  {
    hide WorldInv, Count, Sum, DbInv, Evolves;
    assert DbInv(w.db) by { WorldParts(w); }
    AddUserKeeps(w.db, u);
    OtherCoinsKeep(w, AddUser(w.db, u));
  }

  lemma ReferralWorld(w: World, inviter: UserId, invitee: UserId)
    requires WorldInv(w)
    ensures WorldInv(w.(db := GrantReferral(w.db, inviter, invitee)))
  {
    hide WorldInv, Count, Sum, DbInv, Evolves;
    WorldParts(w);
    ReferralKeeps(w.db, inviter, invitee);
    OtherCoinsKeep(w, GrantReferral(w.db, inviter, invitee));
  }

  lemma RewardWorld(w: World, u: UserId, amount: nat)
    requires WorldInv(w)
    ensures WorldInv(w.(db := Refund(w.db, u, amount, ReportReward)))
  {
    hide WorldInv, Count, Sum, DbInv, Evolves;
    WorldParts(w);
    if u in w.db.users {
      RefundKeeps(w.db, u, amount, ReportReward);
      OtherCoinsKeep(w, Refund(w.db, u, amount, ReportReward));
    }
  }

  lemma DirectMessageWorld(w: World, u: UserId, amount: nat)
    requires WorldInv(w)
    ensures var d := Deduct(w.db, u, amount, DirectMessage);
            d.Some? ==> WorldInv(w.(db := d.value))
  {
    hide WorldInv, Count, Sum, DbInv, Evolves;
    WorldParts(w);
    DeductKeeps(w.db, u, amount, DirectMessage);
    var d := Deduct(w.db, u, amount, DirectMessage);
    if d.Some? { OtherCoinsKeep(w, d.value); }
  }
}
