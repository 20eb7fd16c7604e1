/** Which handlers move no money for room searches. */
module RoomMoney {
  import opened Basics
  import opened Ledger
  import opened Database
  import opened MatchQueue
  import opened World
  import opened ChatHandlers
  import opened RoomHandlers
  import opened RequestHandlers
  import opened ChatSteps
  import opened BotRuns

  ghost predicate NoRoomMoney(db: Db, db': Db) {
    SameCount(db.ledger, db'.ledger, RoomFee) && SameCount(db.ledger, db'.ledger, RoomRefund)
  }

  lemma NoRoomMoneyTransitive(a: Db, b: Db, c: Db)
    requires NoRoomMoney(a, b) && NoRoomMoney(b, c)
    ensures NoRoomMoney(a, c)
  {
    hide Count;
  }

  lemma PostElsewhere(db: Db, u: UserId, amount: int, reason: Reason)
    requires u in db.users && KindOf(reason) != RoomFee && KindOf(reason) != RoomRefund
    ensures NoRoomMoney(db, Post(db, u, amount, reason))
  {
    Append(db.ledger, Txn(u, amount, reason));
  }

  lemma MoveElsewhere(db: Db, u: UserId, amount: nat, reason: Reason)
    requires KindOf(reason) != RoomFee && KindOf(reason) != RoomRefund
    ensures NoRoomMoney(db, Refund(db, u, amount, reason))
    ensures Deduct(db, u, amount, reason).Some? ==> NoRoomMoney(db, Deduct(db, u, amount, reason).value)
  {
    hide Post;
    if u in db.users {
      PostElsewhere(db, u, amount, reason);
      PostElsewhere(db, u, 0 - amount, reason);
    }
  }

  lemma MatchMoney(w: World, u: UserId, own: Option<Gender>, want: Option<Gender>, now: real)
    ensures NoRoomMoney(w.db, PayAndMatch(w, u, own, want, now).db) && NoRoomMoney(w.db, TryMatch(w, u, own, want, now).db)
    ensures PaySearch(w, u).Some? ==> NoRoomMoney(w.db, PaySearch(w, u).value.db)
  {
    hide Count, Deduct;
    MoveElsewhere(w.db, u, CHAT_COST, GenderSearch);
  }

  lemma EndChatMoney(w: World, u: UserId, v: UserId)
    ensures NoRoomMoney(w.db, EndChat(w, u, v).db)
  {
    hide NoRoomMoney, Refund;
    var failed := w.pairs.MsgCount(u, v) < MIN_SUCCESSFUL_MESSAGES;
    var db1 := RefundIf(w.db, failed && u in w.pairs.payer, u);
    ChatRefundMoney(w.db, failed && u in w.pairs.payer, u);
    ChatRefundMoney(db1, failed && v in w.pairs.payer, v);
    NoRoomMoneyTransitive(w.db, db1, EndChat(w, u, v).db);
  }

  lemma ChatRefundMoney(db: Db, cond: bool, u: UserId)
    ensures NoRoomMoney(db, RefundIf(db, cond, u))
  {
    hide Count, Refund;
    MoveElsewhere(db, u, CHAT_COST, FailedChatRefund);
  }

  lemma LeaveQueueMoney(w: World, u: UserId, reason: Reason)
    requires KindOf(reason) == SearchRefund
    ensures NoRoomMoney(w.db, LeaveQueue(w, u, reason).db)
  {
    hide Count, Refund;
    MoveElsewhere(w.db, u, CHAT_COST, reason);
  }

  lemma RunSearchMoney(w: World, u: UserId, own: Option<Gender>, filter: Option<Gender>, choice: Option<UserId>, now: real)
    ensures NoRoomMoney(w.db, RunSearch(w, u, own, filter, choice, now).db)
  {
    hide Count, PaySearch, TryMatch, PayAndMatch;
    MatchMoney(w, u, own, filter, now);
    var paid := if filter.Some? then PaySearch(w, u) else Some(w);
    if paid.Some? {
      MatchMoney(paid.value, u, own, filter, now);
      if choice.Some? { MatchMoney(paid.value.(queue := Dequeue(paid.value.queue, choice.value)), u, own, filter, now); }
    }
  }

  lemma NextChatMoney(w: World, u: UserId, own: Option<Gender>, saved: Option<Option<Gender>>, now: real)
    ensures NoRoomMoney(w.db, NextChat(w, u, own, saved, now).db)
  {
    hide Count, PayAndMatch, EndChat;
    var w1 := match w.pairs.Partner(u) case None => w case Some(v) => EndChat(w, u, v);
    if w.pairs.Partner(u).Some? { EndChatMoney(w, u, w.pairs.Partner(u).value); }
    if saved.Some? { MatchMoney(w1.(queue := Dequeue(w1.queue, u)), u, own, saved.value, now); }
  }

  lemma ChatMoney(w: World, e: Event)
    requires ChatEvent(e)
    ensures NoRoomMoney(w.db, Apply(w, e).db)
  {
    hide Count, PayAndMatch, RunSearch, NextChat, EndChat, LeaveQueue;
    match e
    case ChatStarts(u, own, want, now) => MatchMoney(w, u, own, want, now);
    case FilteredSearch(u, own, want, choice, now) => RunSearchMoney(w, u, own, want, choice, now);
    case ChatStops(u) =>
      LeaveQueueMoney(w, u, SearchCancelRefund);
      if w.pairs.Partner(u).Some? { EndChatMoney(w, u, w.pairs.Partner(u).value); }
    case ChatNexts(u, own, saved, now) => NextChatMoney(w, u, own, saved, now);
    case QueueTimesOut(u) => LeaveQueueMoney(w, u, SearchTimeoutRefund);
    case QueuePurged(_) =>
    case MessageRelayed(_) =>
  }

  lemma {:induction false} RefundEachMoney(db: Db, us: seq<UserId>)
    ensures NoRoomMoney(db, RefundEach(db, us))
    decreases |us|
  {
    hide Count, Refund;
    if us != [] {
      var db1 := Refund(db, us[0], CHAT_COST, RequestTimeoutRefund);
      MoveElsewhere(db, us[0], CHAT_COST, RequestTimeoutRefund);
      RefundEachMoney(db1, us[1..]);
      NoRoomMoneyTransitive(db, db1, RefundEach(db, us));
    }
  }

  lemma AcceptMoney(w: World, id: string, acceptor: UserId)
    ensures NoRoomMoney(w.db, AcceptRequest(w, id, acceptor).db)
  {
    hide Count;
  }

  lemma SendMoney(w: World, id: string, u: UserId, target: UserId, reachable: bool, now: real)
    ensures NoRoomMoney(w.db, SendRequest(w, id, u, target, reachable, now).db)
  {
    hide Count, Deduct, CreateRequest, OnRoomSide;
    MoveElsewhere(w.db, u, CHAT_COST, RequestCost);
  }

  lemma RejectMoney(w: World, id: string)
    ensures NoRoomMoney(w.db, RejectRequest(w, id).db)
  {
    hide Count, Refund, CloseRequest;
    if id in w.requests.store { MoveElsewhere(w.db, w.requests.store[id].requester, CHAT_COST, RequestRejectRefund); }
  }

  lemma ExpiryMoney(w: World, cutoff: real)
    ensures NoRoomMoney(w.db, ExpireRequests(w, cutoff).db)
  {
    hide Count, RefundEach, PopEach, ExpiredIds;
    RefundEachMoney(w.db, PopEach(w.requests, ExpiredIds(w.requests, cutoff)).1);
  }

  lemma RequestMoney(w: World, e: Event)
    requires e.RequestSent? || e.RequestAccepted? || e.RequestRejected? || e.RequestsExpire?
    ensures NoRoomMoney(w.db, Apply(w, e).db)
  {
    hide Count, SendRequest, AcceptRequest, RejectRequest, ExpireRequests, NoRoomMoney, StartChat, RunSearch,
      StopChat, NextChat, QueueTimeout, PurgeQueue, Message, SearchRoom, CancelSearch, SearchTimeout, Sweep, CreateFlow,
      LeaveFlow, KickFlow, DeleteFlow, SetOpenFlow, EnforceBan, HealMirror, SyncMirror, ExitRoomUi, ShowRoom,
      Refund, Deduct, AddUser, GrantReferral;
    match e
    case RequestSent(id, u, target, reachable, now) => SendMoney(w, id, u, target, reachable, now);
    case RequestAccepted(id, u) => AcceptMoney(w, id, u);
    case RequestRejected(id) => RejectMoney(w, id);
    case RequestsExpire(cutoff) => ExpiryMoney(w, cutoff);
  }

  lemma CoinMoney(w: World, e: Event)
    requires CoinEvent(e)
    ensures NoRoomMoney(w.db, Apply(w, e).db)
  {
    hide Count, Post, Refund, Deduct, SendRequest, AcceptRequest, RejectRequest, ExpireRequests;
    match e
    case UserJoins(_) =>
    case ReportRewarded(u, amount) => MoveElsewhere(w.db, u, amount, ReportReward);
    case ReferralCompleted(inviter, u) => if inviter in w.db.users { PostElsewhere(w.db, inviter, REFERRAL_BONUS, ReferralBonus(u)); }
    case DirectMessageSent(u, amount) => MoveElsewhere(w.db, u, amount, DirectMessage);
    case _ => RequestMoney(w, e);
  }
}
