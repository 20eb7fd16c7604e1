/** The handlers of 1:1 chats keep the world invariant. */
module ChatSteps {
  import opened Basics
  import opened Ledger
  import opened Database
  import opened RoomInvariant
  import opened MatchQueue
  import opened World
  import opened ChatHandlers
  import opened WorldInvariant

  // ---------------------------------------------------------------- pairs

  lemma SamePair(a: UserId, b: UserId, u: UserId, v: UserId)
    ensures {a, b} == {u, v} ==> (a == u && b == v) || (a == v && b == u)
  {
    assert {a, b} == {u, v} ==> a in {u, v} && b in {u, v} && u in {a, b} && v in {a, b};
  }

  lemma WaitingIsUnpaired(q: Queue, p: Pairs, u: UserId)
    requires PairsInv(q, p) && q.Waiting(u)
    ensures p.Partner(u) == None
  {
    match p.Partner(u)
    case None =>
    case Some(_) => assert false;
  }

  lemma SetPartnerKeeps(q: Queue, p: Pairs, q': Queue, a: UserId, b: UserId)
    requires PairsInv(q, p) && a != b && p.Partner(a) == None && p.Partner(b) == None
    requires forall u | q'.Waiting(u) :: q.Waiting(u) && u != a && u != b
    ensures PairsInv(q', SetPartner(p, a, b))
  {
    var p' := SetPartner(p, a, b);
    assert forall x, y :: p'.MsgCount(x, y) == p.MsgCount(x, y);
    assert forall x :: p'.Partner(x) == if x == a then Some(b) else if x == b then Some(a) else p.Partner(x);
    hide SetPartner, Pairs.Partner, Pairs.MsgCount;
    forall x, y | p'.Partner(x) == Some(y) ensures x != y && p'.Partner(y) == Some(x) && !q'.Waiting(x) {
      if x != a && x != b { assert p.Partner(x) == Some(y); }
    }
    forall x, y | p'.Partner(x) != Some(y) ensures p'.MsgCount(x, y) == 0 {
      assert p.Partner(x) != Some(y);
    }
  }

  lemma ClearPartnerKeeps(q: Queue, p: Pairs, u: UserId)
    requires PairsInv(q, p)
    ensures PairsInv(q, ClearPartner(p, u))
    ensures ClearPartner(p, u).Partner(u) == None
    ensures forall v :: ClearPartner(p, u).Partner(v).Some? ==> p.Partner(v).Some?
  {
    var p' := ClearPartner(p, u);
    if p.Partner(u).Some? {
      var v := p.Partner(u).value;
      forall x, y | p'.Partner(x) == Some(y) ensures x != y && p'.Partner(y) == Some(x) && !q.Waiting(x) {
        assert p.Partner(x) == Some(y);
      }
      forall x, y | p'.Partner(x) != Some(y) ensures p'.MsgCount(x, y) == 0 {
        if p.Partner(x) == Some(y) { assert {x, y} == {u, v}; }
      }
    }
  }

  lemma FewerWaitingKeeps(q: Queue, q': Queue, p: Pairs)
    requires PairsInv(q, p)
    requires forall u | q'.Waiting(u) :: q.Waiting(u) || p.Partner(u) == None
    ensures PairsInv(q', p)
  {
    forall a, b | p.Partner(a) == Some(b) ensures a != b && p.Partner(b) == Some(a) && !q'.Waiting(a) {}
  }

  // ---------------------------------------------------------------- frames

  ghost predicate SameCount(l: seq<Txn>, l': seq<Txn>, k: Kind) {
    forall u :: Count(l', u, k) == Count(l, u, k)
  }

  lemma RequestsFrame(l: seq<Txn>, l': seq<Txn>, users: set<UserId>, users': set<UserId>, rs: Requests)
    requires RequestsInv(l, users, rs) && users <= users'
    requires SameCount(l, l', RequestFee) && SameCount(l, l', RequestRefund)
    ensures RequestsInv(l', users', rs)
  {
    hide Count;
    forall u ensures RequestFeeOk(l', rs, u) { assert RequestFeeOk(l, rs, u); }
  }

  lemma SeekersFrame(db: Db, db': Db, s: Seekers)
    requires SeekersInv(db, s) && db.users.Keys <= db'.users.Keys
    requires SameCount(db.ledger, db'.ledger, RoomFee) && SameCount(db.ledger, db'.ledger, RoomRefund)
    ensures SeekersInv(db', s)
  {
    hide Count, Seekers.Filter, Seekers.Bucket;
    forall u ensures RoomFeeOk(db'.ledger, s, u) { assert RoomFeeOk(db.ledger, s, u); }
    forall p, u ensures Placed(db'.users.Keys, s, p, u) { assert Placed(db.users.Keys, s, p, u); }
  }

  /** Only coins moved, and none for rooms or requests. */
  ghost predicate SearchCoins(db: Db, db': Db) {
    && DbInv(db') && SameRooms(db, db') && Evolves(db, db')
    && SameCount(db.ledger, db'.ledger, RoomFee) && SameCount(db.ledger, db'.ledger, RoomRefund)
    && SameCount(db.ledger, db'.ledger, RequestFee) && SameCount(db.ledger, db'.ledger, RequestRefund)
  }

  /** A step on the chat side: coins of gender searches, the queue and the pairs. */
  lemma ChatSide(w: World, db: Db, q: Queue, p: Pairs)
    requires WorldInv(w) && SearchCoins(w.db, db)
    requires NoMissedMatch(q) && PairsInv(q, p) && SearchFees(db.ledger, p.payer)
    requires forall u | u in p.payer :: u in db.users
    requires forall u | p.Partner(u).Some? || q.Waiting(u) :: OnChatSide(w, u) || !OnRoomSide(w, u)
    ensures WorldInv(w.(db := db, queue := q, pairs := p))
  {
    hide Count, Sum, NoMissedMatch, PairsInv, DbInv, RequestsInv, SeekersInv;
    var w' := w.(db := db, queue := q, pairs := p);
    forall u ensures !(OnChatSide(w', u) && OnRoomSide(w', u)) {
      assert ActiveRoom(db, u) == ActiveRoom(w.db, u);
    }
    RequestsFrame(w.db.ledger, db.ledger, w.db.users.Keys, db.users.Keys, w.requests);
    SeekersFrame(w.db, db, w.seekers);
  }

  lemma FeeStep(w: World, u: UserId, amount: int, reason: Reason)
    requires DbInv(w.db) && u in w.db.users && w.db.users[u].coins + amount >= 0
    requires KindOf(reason) == SearchFee || KindOf(reason) == SearchRefund
    ensures var db := Post(w.db, u, amount, reason);
            SearchCoins(w.db, db) && Counted(w.db, db, u, KindOf(reason))
  {
    hide Count, Sum;
    PostKeeps(w.db, u, amount, reason);
  }

  // ---------------------------------------------------------------- searching

  lemma PaySearchKeeps(w: World, u: UserId)
    requires WorldInv(w)
    ensures var r := PaySearch(w, u);
            r.Some? ==> WorldInv(r.value) && r.value.queue == w.queue && r.value.pairs.partner == w.pairs.partner
                        && (forall v :: OnRoomSide(r.value, v) == OnRoomSide(w, v))
  {
    hide Count, Sum, NoMissedMatch, RoomInv;
    var r := PaySearch(w, u);
    if r.Some? {
      FeeStep(w, u, 0 - CHAT_COST, GenderSearch);
      assert PairsInv(w.queue, r.value.pairs) by {
        forall a, b | r.value.pairs.Partner(a) != Some(b) ensures r.value.pairs.MsgCount(a, b) == 0 {
          assert w.pairs.Partner(a) != Some(b);
        }
        forall a, b | r.value.pairs.Partner(a) == Some(b)
          ensures a != b && r.value.pairs.Partner(b) == Some(a) && !w.queue.Waiting(a)
        {
          assert w.pairs.Partner(a) == Some(b);
        }
      }
      ChatSide(w, r.value.db, w.queue, r.value.pairs);
    }
  }

  /** What a successful search found: somebody else who was waiting. */
  lemma FoundIsWaiting(q: Queue, u: UserId, own: Gender, want: Option<Gender>)
    ensures var f := FirstMatch(q, u, own, Candidates(q, want));
            f.Some? ==> f.value != u && q.Waiting(f.value)
  {
    var f := FirstMatch(q, u, own, Candidates(q, want));
    if f.Some? { CandidateMembership(q, want, f.value); }
  }

  lemma TryMatchKeeps(w: World, u: UserId, own: Option<Gender>, want: Option<Gender>, now: real)
    requires WorldInv(w) && !OnChatSide(w, u) && !OnRoomSide(w, u)
    ensures WorldInv(TryMatch(w, u, own, want, now))
  {
    hide Count, Sum, NoMissedMatch, DbInv, FirstMatch, Candidates;
    if own.Some? {
      var (q, found) := MatchOrEnqueue(w.queue, u, own.value, want, now);
      MatchOrEnqueueKeepsNoMissedMatch(w.queue, u, own.value, want, now);
      FoundIsWaiting(w.queue, u, own.value, want);
      if found.None? {
        FewerWaitingKeeps(w.queue, q, w.pairs);
        ChatSide(w, w.db, q, w.pairs);
      } else {
        SetPartnerKeeps(w.queue, w.pairs, q, u, found.value);
        ChatSide(w, w.db, q, SetPartner(w.pairs, u, found.value));
      }
    }
  }

  lemma PayAndMatchKeeps(w: World, u: UserId, own: Option<Gender>, want: Option<Gender>, now: real)
    requires WorldInv(w) && !OnChatSide(w, u) && !OnRoomSide(w, u)
    ensures WorldInv(PayAndMatch(w, u, own, want, now))
  {
    hide WorldInv, TryMatch;
    if want.None? {
      TryMatchKeeps(w, u, own, want, now);
    } else {
      PaySearchKeeps(w, u);
      var r := PaySearch(w, u);
      if r.Some? { TryMatchKeeps(r.value, u, own, want, now); }
    }
  }

  lemma StartChatKeeps(w: World, u: UserId, own: Option<Gender>, want: Option<Gender>, now: real)
    requires WorldInv(w)
    ensures WorldInv(StartChat(w, u, own, want, now))
  {
    if !OnChatSide(w, u) && !OnRoomSide(w, u) { PayAndMatchKeeps(w, u, own, want, now); }
  }

  lemma DequeueKeeps(w: World, u: UserId)
    requires WorldInv(w)
    ensures WorldInv(w.(queue := Dequeue(w.queue, u)))
  {
    hide Count, Sum, DbInv, NoMissedMatch;
    RemovalKeepsNoMissedMatch(w.queue, Dequeue(w.queue, u));
    FewerWaitingKeeps(w.queue, Dequeue(w.queue, u), w.pairs);
    ChatSide(w, w.db, Dequeue(w.queue, u), w.pairs);
  }

  /** The filtered search of a caller who is not already waiting. */
  lemma FreshSearchKeeps(w: World, u: UserId, own: Option<Gender>, filter: Option<Gender>, choice: Option<UserId>, now: real)
    requires WorldInv(w) && !w.queue.Waiting(u)
    requires choice.Some? ==> choice.value != u
    ensures WorldInv(RunSearch(w, u, own, filter, choice, now))
  {
    hide Count, Sum, DbInv, NoMissedMatch, TryMatch;
    if !OnRoomSide(w, u) && w.pairs.Partner(u).None? {
      PaySearchKeeps(w, u);
      var paid := if filter.Some? then PaySearch(w, u) else Some(w);
      if paid.Some? {
        var w1 := paid.value;
        if choice.None? {
          TryMatchKeeps(w1, u, own, filter, now);
        } else {
          ClaimKeeps(w1, u, own, filter, choice.value, now);
        }
      }
    }
  }

  /** A candidate is claimed, whether or not the caller waits; without one a caller who
      does not wait falls back to the plain search. */
  lemma ClaimKeeps(w1: World, u: UserId, own: Option<Gender>, filter: Option<Gender>, c: UserId, now: real)
    requires WorldInv(w1) && w1.pairs.Partner(u).None? && !OnRoomSide(w1, u) && c != u
    ensures var w2 := w1.(queue := Dequeue(w1.queue, c));
            if w1.queue.Waiting(c) && w1.pairs.Partner(c).None?
            then WorldInv(w2.(queue := Dequeue(w2.queue, u), pairs := SetPartner(w2.pairs, u, c)))
            else WorldInv(w2) && (!w1.queue.Waiting(u) ==> WorldInv(TryMatch(w2, u, own, filter, now)))
  {
    hide Count, Sum, DbInv, NoMissedMatch, TryMatch;
    var w2 := w1.(queue := Dequeue(w1.queue, c));
    DequeueKeeps(w1, c);
    if w1.queue.Waiting(c) && w1.pairs.Partner(c).None? {
      var q := Dequeue(w2.queue, u);
      RemovalKeepsNoMissedMatch(w2.queue, q);
      SetPartnerKeeps(w2.queue, w2.pairs, q, u, c);
      assert !OnRoomSide(w1, c);
      ChatSide(w2, w2.db, q, SetPartner(w2.pairs, u, c));
    } else if !w1.queue.Waiting(u) {
      TryMatchKeeps(w2, u, own, filter, now);
    }
  }
}
