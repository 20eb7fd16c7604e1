/** The handlers of 1:1 chats and chat requests as the bot runs them, step by step. */
module ChatBot {
  import opened Basics
  import opened Ledger
  import opened Database
  import opened MatchQueue
  import opened World
  import opened BotStores
  import ChatHandlers
  import RequestHandlers
  import RequestRefunds

  method TryMatch(s: Stores, u: UserId, own: Option<Gender>, want: Option<Gender>, now: real)
    modifies s.Keys()
    ensures s.Snapshot() == ChatHandlers.TryMatch(old(s.Snapshot()), u, own, want, now)
  {
    if own.None? { return; }
    var partner := s.queue.MatchOrEnqueue(u, own.value, want, now);
    if partner.None? { return; }
    s.pairs.SetPartner(u, partner.value);
  }

  /** The charge of a gender search and the flag of its payer. */
  method PaySearch(s: Stores, u: UserId) returns (paid: bool)
    modifies s.Keys()
    ensures paid <==> ChatHandlers.PaySearch(old(s.Snapshot()), u).Some?
    ensures s.Snapshot() == if paid then ChatHandlers.PaySearch(old(s.Snapshot()), u).value else old(s.Snapshot())
  {
    hide Deduct;
    var balance := s.pg.DeductCoins(u, CHAT_COST, GenderSearch);
    paid := balance.Some?;
    if paid { s.pairs.SetPayer(u); }
  }

  /** Charging for a gender filter and matching, shared by every way into a 1:1 chat. */
  method PayAndMatch(s: Stores, u: UserId, own: Option<Gender>, want: Option<Gender>, now: real)
    modifies s.Keys()
    ensures s.Snapshot() == ChatHandlers.PayAndMatch(old(s.Snapshot()), u, own, want, now)
  {
    hide ChatHandlers.TryMatch, ChatHandlers.PaySearch;
    if want.Some? {
      var paid := PaySearch(s, u);
      if !paid { return; }
    }
    TryMatch(s, u, own, want, now);
  }

  method StartChat(s: Stores, u: UserId, own: Option<Gender>, want: Option<Gender>, now: real)
    modifies s.Keys()
    ensures s.Snapshot() == ChatHandlers.StartChat(old(s.Snapshot()), u, own, want, now)
  {
    if u in s.pairs.partner { return; }
    var waiting := s.IsWaiting(u);
    if waiting { return; }
    var conflict := s.HasRoomConflict(u);
    if conflict { return; }
    PayAndMatch(s, u, own, want, now);
  }

  /** The chosen candidate is taken out of the queue, if it is still there and unpaired. */
  method Claim(s: Stores, c: UserId) returns (claimed: bool)
    modifies s.Keys()
    ensures s.Snapshot() == old(s.Snapshot()).(queue := Dequeue(old(s.Snapshot()).queue, c))
    ensures claimed <==> old(s.Snapshot()).queue.Waiting(c) && old(s.Snapshot()).pairs.Partner(c).None?
  {
    hide Dequeue, Queue.Bucket;
    var removed := s.queue.Dequeue(c);
    claimed := removed && c !in s.pairs.partner;
  }

  /** Filtered search, `choice` being what the profile query returned. */
  method RunSearch(s: Stores, u: UserId, own: Option<Gender>, filter: Option<Gender>, choice: Option<UserId>, now: real)
    modifies s.Keys()
    ensures s.Snapshot() == ChatHandlers.RunSearch(old(s.Snapshot()), u, own, filter, choice, now)
  {
    hide ChatHandlers.TryMatch, ChatHandlers.PaySearch, OnRoomSide, Dequeue, SetPartner;
    var conflict := s.HasRoomConflict(u);
    if conflict { return; }
    if u in s.pairs.partner { return; }
    if filter.Some? {
      var paid := PaySearch(s, u);
      if !paid { return; }
    }
    var matched := false;
    if choice.Some? { matched := Claim(s, choice.value); }
    if matched {
      var wasWaiting := s.queue.Dequeue(u);
      s.pairs.SetPartner(u, choice.value);
    } else {
      TryMatch(s, u, own, filter, now);
    }
  }

  /** Payer flags and message count are read first, then the keys go, then coins return. */
  method EndChat(s: Stores, u: UserId)
    modifies s.Keys()
    ensures s.Snapshot() == match old(s.Snapshot()).pairs.Partner(u)
                            case None => old(s.Snapshot())
                            case Some(v) => ChatHandlers.EndChat(old(s.Snapshot()), u, v)
  {
    var partner := Get(s.pairs.partner, u);
    var count, userPaid, partnerPaid := 0, false, false;
    if partner.Some? {
      count := s.pairs.Model().MsgCount(u, partner.value);
      userPaid := u in s.pairs.payer;
      partnerPaid := partner.value in s.pairs.payer;
    }
    var former := s.pairs.ClearPartner(u);
    if former.Some? {
      if count < ChatHandlers.MIN_SUCCESSFUL_MESSAGES {
        if userPaid { s.pg.RefundCoins(u, CHAT_COST, FailedChatRefund); }
        if partnerPaid { s.pg.RefundCoins(former.value, CHAT_COST, FailedChatRefund); }
      }
    }
  }

  method LeaveQueue(s: Stores, u: UserId, reason: Reason)
    modifies s.Keys()
    ensures s.Snapshot() == ChatHandlers.LeaveQueue(old(s.Snapshot()), u, reason)
  {
    var removed := s.queue.Dequeue(u);
    if u in s.pairs.payer {
      s.pg.RefundCoins(u, CHAT_COST, reason);
      s.pairs.ClearPayer(u);
    }
  }

  method StopChat(s: Stores, u: UserId)
    modifies s.Keys()
    ensures s.Snapshot() == ChatHandlers.StopChat(old(s.Snapshot()), u)
  {
    var waiting := s.IsWaiting(u);
    if waiting {
      LeaveQueue(s, u, SearchCancelRefund);
      return;
    }
    EndChat(s, u);
  }

  method NextChat(s: Stores, u: UserId, own: Option<Gender>, saved: Option<Option<Gender>>, now: real)
    modifies s.Keys()
    ensures s.Snapshot() == ChatHandlers.NextChat(old(s.Snapshot()), u, own, saved, now)
  {
    EndChat(s, u);
    var removed := s.queue.Dequeue(u);
    if saved.None? { return; }
    PayAndMatch(s, u, own, saved.value, now);
  }

  method QueueTimeout(s: Stores, u: UserId)
    modifies s.Keys()
    ensures s.Snapshot() == ChatHandlers.QueueTimeout(old(s.Snapshot()), u)
  {
    var waiting := s.IsWaiting(u);
    if !waiting { return; }
    LeaveQueue(s, u, SearchTimeoutRefund);
  }

  method PurgeQueue(s: Stores, cutoff: real)
    modifies s.Keys()
    ensures s.Snapshot() == ChatHandlers.PurgeQueue(old(s.Snapshot()), cutoff)
  {
    s.queue.PurgeStale(cutoff);
  }

  method CountMessage(s: Stores, u: UserId)
    modifies s.Keys()
    ensures s.Snapshot() == ChatHandlers.Message(old(s.Snapshot()), u)
  {
    if u !in s.pairs.partner { return; }
    s.pairs.CountMessage(u, s.pairs.partner[u]);
  }

  // ---------------------------------------------------------------- chat requests

  method SendRequest(s: Stores, id: string, requester: UserId, target: UserId, reachable: bool, now: real)
    modifies s.Keys()
    ensures s.Snapshot() == RequestHandlers.SendRequest(old(s.Snapshot()), id, requester, target, reachable, now)
  {
    if target == requester { return; }
    if s.requests.CountActive(requester) >= RequestHandlers.MAX_OPEN_REQUESTS { return; }
    if requester in s.pairs.partner { return; }
    var conflict := s.HasRoomConflict(requester);
    if conflict { return; }
    if target in s.pairs.partner { return; }
    if !reachable { return; }
    var balance := s.pg.DeductCoins(requester, CHAT_COST, RequestCost);
    if balance.None? { return; }
    s.requests.Create(id, requester, target, now);
  }

  method AcceptRequest(s: Stores, id: string, acceptor: UserId)
    modifies s.Keys()
    ensures s.Snapshot() == RequestHandlers.AcceptRequest(old(s.Snapshot()), id, acceptor)
  {
    if id !in s.requests.store { return; }
    var requester := s.requests.store[id].requester;
    var acceptorWaits := s.IsWaiting(acceptor);
    var requesterWaits := s.IsWaiting(requester);
    if acceptor in s.pairs.partner || requester in s.pairs.partner || acceptorWaits || requesterWaits {
      s.requests.Clear(id, Cancelled);
      return;
    }
    var acceptorInRoom := s.HasRoomConflict(acceptor);
    var requesterInRoom := s.HasRoomConflict(requester);
    if acceptorInRoom || requesterInRoom {
      s.requests.Clear(id, Cancelled);
      return;
    }
    s.requests.Clear(id, Accepted);
    var a := s.queue.Dequeue(acceptor);
    var b := s.queue.Dequeue(requester);
    s.pairs.SetPartner(acceptor, requester);
  }

  method RejectRequest(s: Stores, id: string)
    modifies s.Keys()
    ensures s.Snapshot() == RequestHandlers.RejectRequest(old(s.Snapshot()), id)
  {
    var data := Get(s.requests.store, id);
    s.requests.Clear(id, Rejected);
    if data.Some? { s.pg.RefundCoins(data.value.requester, CHAT_COST, RequestRejectRefund); }
  }

  /** The job: pop what expired, then pay back one requester after the other. */
  method ExpireRequests(s: Stores, cutoff: real)
    modifies s.Keys()
    ensures s.Snapshot() == RequestHandlers.ExpireRequests(old(s.Snapshot()), cutoff)
  {
    ghost var w := s.Snapshot();
    var requesters := s.requests.PopExpired(cutoff);
    ghost var w1 := s.Snapshot();
    hide RequestHandlers.RefundEach;
    RequestRefunds.NobodyToPay(w1.db);
    for i := 0 to |requesters|
      invariant s.Snapshot() == w1.(db := RequestHandlers.RefundEach(w1.db, requesters[..i]))
    {
      RequestRefunds.OneMore(w1.db, requesters[..i], requesters[i]);
      assert requesters[..i + 1] == requesters[..i] + [requesters[i]];
      s.pg.RefundCoins(requesters[i], CHAT_COST, RequestTimeoutRefund);
    }
    assert requesters[..|requesters|] == requesters;
  }
}

module RequestRefunds {
  import opened Basics
  import opened Ledger
  import opened Database
  import opened RequestHandlers

  lemma NobodyToPay(db: Db)
    ensures RefundEach(db, []) == db
  {
  }

  lemma {:induction false} OneMore(db: Db, us: seq<UserId>, u: UserId)
    ensures RefundEach(db, us + [u]) == Refund(RefundEach(db, us), u, CHAT_COST, RequestTimeoutRefund)
    decreases |us|
  {
    if us == [] {
      assert us + [u] == [u] && [u][1..] == [];
    } else {
      assert (us + [u])[1..] == us[1..] + [u];
      OneMore(Refund(db, us[0], CHAT_COST, RequestTimeoutRefund), us[1..], u);
    }
  }
}
