/** Leaving a chat or its queue keeps the world invariant. */
module ChatEndings {
  import opened Basics
  import opened Ledger
  import opened Database
  import opened RoomInvariant
  import opened MatchQueue
  import opened World
  import opened ChatHandlers
  import opened WorldInvariant
  import opened ChatSteps

  lemma SearchCoinsTransitive(a: Db, b: Db, c: Db)
    requires SearchCoins(a, b) && SearchCoins(b, c)
    ensures SearchCoins(a, c)
  {
    hide Count, Sum, DbInv;
    EvolvesTransitive(a, b, c);
    forall u ensures ActiveRoom(c, u) == ActiveRoom(a, u) { assert ActiveRoom(b, u) == ActiveRoom(a, u); }
  }

  /** A payer flag is dropped, with or without its refund. */
  lemma DropFlag(db: Db, payer: set<UserId>, u: UserId, pay: bool, reason: Reason)
    requires DbInv(db) && SearchFees(db.ledger, payer) && (forall v | v in payer :: v in db.users)
    requires pay ==> u in payer && KindOf(reason) == SearchRefund
    ensures var db' := if pay then Refund(db, u, CHAT_COST, reason) else db;
            SearchCoins(db, db') && SearchFees(db'.ledger, payer - {u})
  {
    hide Count, Sum;
    if pay {
      RefundKeeps(db, u, CHAT_COST, reason);
    }
  }

  lemma EndChatKeeps(w: World, u: UserId, v: UserId)
    requires WorldInv(w) && w.pairs.Partner(u) == Some(v)
    ensures WorldInv(EndChat(w, u, v)) && EndChat(w, u, v).pairs.Partner(u) == None
    ensures forall x :: OnRoomSide(EndChat(w, u, v), x) == OnRoomSide(w, x)
  {
    hide Count, Sum, DbInv, NoMissedMatch;
    var failed := w.pairs.MsgCount(u, v) < MIN_SUCCESSFUL_MESSAGES;
    var db1 := RefundIf(w.db, failed && u in w.pairs.payer, u);
    var db2 := RefundIf(db1, failed && v in w.pairs.payer, v);
    DropFlag(w.db, w.pairs.payer, u, failed && u in w.pairs.payer, FailedChatRefund);
    DropFlag(db1, w.pairs.payer - {u}, v, failed && v in w.pairs.payer, FailedChatRefund);
    SearchCoinsTransitive(w.db, db1, db2);
    assert w.pairs.payer - {u} - {v} == w.pairs.payer - {u, v};
    ClearPartnerKeeps(w.queue, w.pairs, u);
    ChatSide(w, db2, w.queue, ClearPartner(w.pairs, u));
  }

  lemma LeaveQueueKeeps(w: World, u: UserId, reason: Reason)
    requires WorldInv(w) && w.queue.Waiting(u) && KindOf(reason) == SearchRefund
    ensures WorldInv(LeaveQueue(w, u, reason))
  {
    hide Count, Sum, DbInv, NoMissedMatch, SeekersInv, RequestsInv, MirrorInv, SearchCoins;
    var q := Dequeue(w.queue, u);
    var pay := u in w.pairs.payer;
    RemovalKeepsNoMissedMatch(w.queue, q);
    FewerWaitingKeeps(w.queue, q, w.pairs);
    DropFlag(w.db, w.pairs.payer, u, pay, reason);
    var p := w.pairs.(payer := w.pairs.payer - {u});
    assert PairsInv(q, p) by {
      forall a, b | p.Partner(a) == Some(b) ensures a != b && p.Partner(b) == Some(a) && !q.Waiting(a) {
        assert w.pairs.Partner(a) == Some(b);
      }
      forall a, b | p.Partner(a) != Some(b) ensures p.MsgCount(a, b) == 0 { assert w.pairs.Partner(a) != Some(b); }
    }
    ChatSide(w, if pay then Refund(w.db, u, CHAT_COST, reason) else w.db, q, p);
    assert !pay ==> p == w.pairs;
  }

  lemma StopChatKeeps(w: World, u: UserId)
    requires WorldInv(w)
    ensures WorldInv(StopChat(w, u)) && !OnChatSide(StopChat(w, u), u)
  {
    hide Count, Sum, DbInv, NoMissedMatch, SeekersInv, RequestsInv, MirrorInv;
    if w.queue.Waiting(u) {
      LeaveQueueKeeps(w, u, SearchCancelRefund);
    } else if w.pairs.Partner(u).Some? {
      EndChatKeeps(w, u, w.pairs.Partner(u).value);
    }
  }

  lemma QueueTimeoutKeeps(w: World, u: UserId)
    requires WorldInv(w)
    ensures WorldInv(QueueTimeout(w, u))
  {
    if w.queue.Waiting(u) { LeaveQueueKeeps(w, u, SearchTimeoutRefund); }
  }

  lemma PurgeQueueKeeps(w: World, cutoff: real)
    requires WorldInv(w)
    ensures WorldInv(PurgeQueue(w, cutoff))
  {
    hide Count, Sum, DbInv, NoMissedMatch;
    var q := PurgeStale(w.queue, cutoff);
    RemovalKeepsNoMissedMatch(w.queue, q);
    FewerWaitingKeeps(w.queue, q, w.pairs);
    ChatSide(w, w.db, q, w.pairs);
  }

  lemma MessageKeeps(w: World, u: UserId)
    requires WorldInv(w)
    ensures WorldInv(Message(w, u))
  {
    hide Count, Sum, DbInv, NoMissedMatch;
    if w.pairs.Partner(u).Some? {
      var v := w.pairs.Partner(u).value;
      var p := Message(w, u).pairs;
      assert PairsInv(w.queue, p) by {
        forall a, b | p.Partner(a) == Some(b) ensures a != b && p.Partner(b) == Some(a) && !w.queue.Waiting(a) {
          assert w.pairs.Partner(a) == Some(b);
        }
        forall a, b | p.Partner(a) != Some(b) ensures p.MsgCount(a, b) == 0 {
          assert w.pairs.Partner(a) != Some(b);
          SamePair(a, b, u, v);
        }
      }
      ChatSide(w, w.db, w.queue, p);
    }
  }

  /** The world in which a /next command starts its new search. */
  function NextBase(w: World, u: UserId): World {
    var w1 := match w.pairs.Partner(u) case None => w case Some(v) => EndChat(w, u, v);
    w1.(queue := Dequeue(w1.queue, u))
  }

  lemma NextBaseKeeps(w: World, u: UserId)
    requires WorldInv(w)
    ensures WorldInv(NextBase(w, u)) && !OnChatSide(NextBase(w, u), u)
    ensures forall x :: OnRoomSide(NextBase(w, u), x) == OnRoomSide(w, x)
  {
    hide WorldInv, EndChat;
    match w.pairs.Partner(u)
    case None => DequeueKeeps(w, u);
    case Some(v) =>
      EndChatKeeps(w, u, v);
      DequeueKeeps(EndChat(w, u, v), u);
  }
}
