/** What each handler of 1:1 chats means to the people involved: who talks to whom, who waits
    for whom, whose coins moved and what for; and what stays as it was for everybody else. */
module ChatOutcomes {
  import opened Basics
  import opened SortedSets
  import opened Ledger
  import opened Database
  import opened RoomInvariant
  import opened MatchQueue
  import opened MatchOrder
  import opened World
  import opened ChatHandlers
  import opened WorldInvariant
  import opened ChatSteps
  import opened ChatEndings
  import opened Effects

  // ---------------------------------------------------------------- searching

  /** The caller and the earliest suitable user are paired. */
  ghost predicate PairsWith(w: World, w': World, u: UserId, own: Gender, want: Option<Gender>, g: Gender, c: UserId) {
    && EarliestIn(w.queue, u, own, want, g, c) && Paired(w', u, c) && OthersKeepPartner(w, w', u, c)
    && !w'.queue.Waiting(c) && OthersKeepPlace(w, w', c)
  }

  /** The caller waits from now on, under its gender and with its wish. */
  ghost predicate Queues(w: World, w': World, u: UserId, own: Gender, want: Option<Gender>, now: real) {
    && Get(w'.queue.Bucket(own), u) == Some(now) && Get(w'.queue.desired, u) == want && OthersKeepPlace(w, w', u)
    && w'.pairs.partner == w.pairs.partner
  }

  ghost predicate SomebodyToMeet(w: World, u: UserId, own: Gender, want: Option<Gender>) {
    exists g, c | Searched(want, g) && c in w.queue.Bucket(g) :: Suits(w.queue, u, own, c)
  }

  /** Whenever there is somebody to meet the caller meets the earliest, else it waits. */
  ghost predicate EntersChat(w: World, w': World, u: UserId, own: Gender, want: Option<Gender>, now: real) {
    && (SomebodyToMeet(w, u, own, want) ==> exists g, c :: PairsWith(w, w', u, own, want, g, c))
    && (!SomebodyToMeet(w, u, own, want) ==> Queues(w, w', u, own, want, now))
  }

  /** A search with a known gender ends in a pair or in the queue, and never moves coins. */
  lemma TryMatchOutcome(w: World, u: UserId, own: Gender, want: Option<Gender>, now: real)
    ensures var w' := TryMatch(w, u, Some(own), want, now);
            && EntersChat(w, w', u, own, want, now)
            && w'.db == w.db && w'.pairs.payer == w.pairs.payer && CountsStay(w, w') && OnlyChatSide(w, w')
  {
    hide EarliestIn, Suits, FirstMatch, Candidates, Untouched;
    SearchFindsEarliest(w.queue, u, own, want);
    MatchOrEnqueueEffect(w.queue, u, own, want, now);
    var found := FirstMatch(w.queue, u, own, Candidates(w.queue, want));
    if found.Some? {
      var g :| EarliestIn(w.queue, u, own, want, g, found.value);
      assert Searched(want, g) && found.value in w.queue.Bucket(g) && Suits(w.queue, u, own, found.value) by {
        EarliestSuits(w.queue, u, own, want, g, found.value);
      }
      assert PairsWith(w, TryMatch(w, u, Some(own), want, now), u, own, want, g, found.value);
    }
  }

  lemma EarliestSuits(q: Queue, self: UserId, own: Gender, want: Option<Gender>, g: Gender, c: UserId)
    requires EarliestIn(q, self, own, want, g, c)
    ensures Searched(want, g) && c in q.Bucket(g) && Suits(q, self, own, c)
  {
  }

  /** What a gender filter costs: two coins, booked as such, and the flag; without a filter
      nothing moves. */
  ghost predicate Charged(w: World, w': World, u: UserId, filter: Option<Gender>) {
    if filter.None? then w'.db == w.db && w'.pairs.payer == w.pairs.payer
    else Booked(w.db, w'.db, u, 0 - CHAT_COST, GenderSearch) && w'.pairs.payer == w.pairs.payer + {u}
  }

  predicate Affords(w: World, u: UserId, filter: Option<Gender>) {
    filter.Some? ==> CanPay(w.db, u, CHAT_COST)
  }

  lemma PaySearchOutcome(w: World, u: UserId)
    ensures var r := PaySearch(w, u);
            && (r.Some? <==> CanPay(w.db, u, CHAT_COST))
            && (r.Some? ==>
                  && Booked(w.db, r.value.db, u, 0 - CHAT_COST, GenderSearch)
                  && r.value.pairs == w.pairs.(payer := w.pairs.payer + {u}) && r.value.queue == w.queue && OnlyChatSide(w, r.value))
  {
    DeductBooks(w.db, u, CHAT_COST, GenderSearch);
    hide Deduct, Booked;
  }

  /** A start that is not turned away: it is paid for first, and searches with that very wish.
      A caller without a gender is charged all the same and gets nowhere. */
  ghost predicate StartsChat(w: World, w': World, u: UserId, own: Option<Gender>, want: Option<Gender>, now: real) {
    && (!Affords(w, u, want) ==> w' == w)
    && (Affords(w, u, want) ==>
          && Charged(w, w', u, want) && CountsStay(w, w') && OnlyChatSide(w, w')
          && (own.Some? ==> EntersChat(w, w', u, own.value, want, now))
          && (own.None? ==> w'.queue == w.queue && w'.pairs.partner == w.pairs.partner))
  }

  /** Whom a caller would meet depends on the queue alone. */
  lemma EntersAlike(w: World, w1: World, w': World, u: UserId, own: Gender, want: Option<Gender>, now: real)
    requires EntersChat(w1, w', u, own, want, now) && w1.queue == w.queue && w1.pairs.partner == w.pairs.partner
    ensures EntersChat(w, w', u, own, want, now)
  {
    hide EarliestIn, Suits, Untouched;
    if SomebodyToMeet(w, u, own, want) {
      assert SomebodyToMeet(w1, u, own, want);
      var g, c :| PairsWith(w1, w', u, own, want, g, c);
      assert PairsWith(w, w', u, own, want, g, c);
    } else {
      assert !SomebodyToMeet(w1, u, own, want);
    }
  }

  lemma PayAndMatchOutcome(w: World, u: UserId, own: Option<Gender>, want: Option<Gender>, now: real)
    ensures StartsChat(w, PayAndMatch(w, u, own, want, now), u, own, want, now)
  {
    hide TryMatch, PaySearch, EntersChat, Booked;
    PaySearchOutcome(w, u);
    var paid := if want.Some? then PaySearch(w, u) else Some(w);
    if paid.Some? {
      var w1 := paid.value;
      if own.Some? {
        TryMatchOutcome(w1, u, own.value, want, now);
        EntersAlike(w, w1, TryMatch(w1, u, own, want, now), u, own.value, want, now);
      } else {
        NoGenderStays(w1, u, want, now);
      }
    }
  }

  lemma NoGenderStays(w: World, u: UserId, want: Option<Gender>, now: real)
    ensures TryMatch(w, u, None, want, now) == w
  {
  }

  /** Starting a chat: turned away on either side, else charged for a wish and matched or
      queued with it. */
  ghost predicate StartMeans(w: World, w': World, u: UserId, own: Option<Gender>, want: Option<Gender>, now: real) {
    if OnChatSide(w, u) || OnRoomSide(w, u) then w' == w else StartsChat(w, w', u, own, want, now)
  }

  lemma StartOutcome(w: World, u: UserId, own: Option<Gender>, want: Option<Gender>, now: real)
    ensures StartMeans(w, StartChat(w, u, own, want, now), u, own, want, now)
  {
    hide PayAndMatch, StartsChat;
    PayAndMatchOutcome(w, u, own, want, now);
  }

  /** A claimed candidate: paired with the caller, and both out of the queue. */
  ghost predicate Claims(w: World, w': World, u: UserId, c: UserId) {
    && Paired(w', u, c) && OthersKeepPartner(w, w', u, c) && !w'.queue.Waiting(u) && !w'.queue.Waiting(c)
    && forall x | x != u && x != c :: Untouched(w.queue, w'.queue, x)
  }

  predicate Claimable(w: World, choice: Option<UserId>) {
    choice.Some? && w.queue.Waiting(choice.value) && w.pairs.Partner(choice.value).None?
  }

  /** The queue a search without a claim falls back to. */
  function WithoutChoice(w: World, choice: Option<UserId>): World {
    if choice.None? then w else w.(queue := Dequeue(w.queue, choice.value))
  }

  /** The filtered search: turned away, or charged for its filter and then either claiming the
      choice or searching with that very filter. */
  ghost predicate FilteredSearchMeans(w: World, w': World, u: UserId, own: Option<Gender>, filter: Option<Gender>,
                                      choice: Option<UserId>, now: real) {
    if OnRoomSide(w, u) || w.pairs.Partner(u).Some? || !Affords(w, u, filter) then w' == w
    else
      && Charged(w, w', u, filter) && CountsStay(w, w') && OnlyChatSide(w, w')
      && (Claimable(w, choice) ==> Claims(w, w', u, choice.value))
      && (!Claimable(w, choice) && own.Some? ==> EntersChat(WithoutChoice(w, choice), w', u, own.value, filter, now))
      && (!Claimable(w, choice) && own.None? ==>
            w'.queue == WithoutChoice(w, choice).queue && w'.pairs.partner == w.pairs.partner)
  }

  lemma FilteredSearchOutcome(w: World, u: UserId, own: Option<Gender>, filter: Option<Gender>, choice: Option<UserId>, now: real)
    requires choice.Some? ==> choice.value != u
    ensures FilteredSearchMeans(w, RunSearch(w, u, own, filter, choice, now), u, own, filter, choice, now)
  {
    hide TryMatch, PaySearch, EntersChat, Booked, OnRoomSide;
    PaySearchOutcome(w, u);
    var paid := if filter.Some? then PaySearch(w, u) else Some(w);
    if paid.Some? {
      var w1 := paid.value;
      var w2 := WithoutChoice(w1, choice);
      if Claimable(w, choice) {
        ClaimedPair(w1, u, choice.value);
      } else if own.Some? {
        TryMatchOutcome(w2, u, own.value, filter, now);
        EntersAlike(WithoutChoice(w, choice), w2, TryMatch(w2, u, own, filter, now), u, own.value, filter, now);
      } else {
        NoGenderStays(w2, u, filter, now);
      }
    }
  }

  lemma ClaimedPair(w: World, u: UserId, c: UserId)
    requires c != u
    ensures var w' := w.(queue := Dequeue(Dequeue(w.queue, c), u), pairs := SetPartner(w.pairs, u, c));
            Claims(w, w', u, c) && CountsStay(w, w') && w'.pairs.payer == w.pairs.payer
  {
  }

  // ---------------------------------------------------------------- leaving

  /** What one user gets back when a chat of `count` messages ends. */
  function ChatRefund(w: World, x: UserId, count: nat): nat {
    if count < MIN_SUCCESSFUL_MESSAGES && x in w.pairs.payer then CHAT_COST else 0
  }

  function RefundEntry(w: World, x: UserId, count: nat): seq<Txn> {
    if ChatRefund(w, x, count) == 0 then [] else [Txn(x, CHAT_COST, FailedChatRefund)]
  }

  /** Both partners are free, unmarked and strangers again; each payer of a chat of fewer
      than three messages has its coins back, and nobody else is affected. */
  ghost predicate ChatEnds(w: World, w': World, u: UserId, v: UserId) {
    var count := w.pairs.MsgCount(u, v);
    && w'.pairs.Partner(u) == None && w'.pairs.Partner(v) == None && OthersKeepPartner(w, w', u, v)
    && w'.pairs.payer == w.pairs.payer - {u, v}
    && (forall a, b :: w'.pairs.MsgCount(a, b) == if {a, b} == {u, v} then 0 else w.pairs.MsgCount(a, b))
    && w'.db.ledger == w.db.ledger + RefundEntry(w, u, count) + RefundEntry(w, v, count) && SameRooms(w.db, w'.db)
    && (forall x | x in w.db.users ::
          Coins(w'.db, x) == Coins(w.db, x) + (if x == u || x == v then ChatRefund(w, x, count) else 0))
    && OnlyChatSide(w, w')
  }

  lemma RefundIfOutcome(db: Db, cond: bool, u: UserId)
    requires cond ==> u in db.users
    ensures var db' := RefundIf(db, cond, u);
            && db'.ledger == db.ledger + (if cond then [Txn(u, CHAT_COST, FailedChatRefund)] else [])
            && OnlyMoves(db, db', u, if cond then CHAT_COST else 0) && SameRooms(db, db')
  {
    if cond { RefundBooks(db, u, CHAT_COST, FailedChatRefund); }
    hide Refund;
  }

  lemma EndChatOutcome(w: World, u: UserId, v: UserId)
    requires WorldInv(w) && w.pairs.Partner(u) == Some(v)
    ensures ChatEnds(w, EndChat(w, u, v), u, v) && EndChat(w, u, v).queue == w.queue
  {
    hide Sum, Count, DbInv, SeekersInv, RequestsInv, MirrorInv, NoMissedMatch, SearchFees, Exclusive, RefundIf;
    assert u != v;
    var failed := w.pairs.MsgCount(u, v) < MIN_SUCCESSFUL_MESSAGES;
    var db1 := RefundIf(w.db, failed && u in w.pairs.payer, u);
    RefundIfOutcome(w.db, failed && u in w.pairs.payer, u);
    RefundIfOutcome(db1, failed && v in w.pairs.payer, v);
    RefundEntries(w, u, v);
    ClearedPair(w.pairs, u, v);
  }

  lemma RefundEntries(w: World, u: UserId, v: UserId)
    ensures var count := w.pairs.MsgCount(u, v);
            var failed := count < MIN_SUCCESSFUL_MESSAGES;
            && RefundEntry(w, u, count) == (if failed && u in w.pairs.payer then [Txn(u, CHAT_COST, FailedChatRefund)] else [])
            && RefundEntry(w, v, count) == (if failed && v in w.pairs.payer then [Txn(v, CHAT_COST, FailedChatRefund)] else [])
  {
  }

  lemma ClearedPair(p: Pairs, u: UserId, v: UserId)
    requires p.Partner(u) == Some(v)
    ensures var p' := ClearPartner(p, u);
            && p'.Partner(u) == None && p'.Partner(v) == None && (forall x | x != u && x != v :: p'.Partner(x) == p.Partner(x))
            && p'.payer == p.payer - {u, v}
            && forall a, b :: p'.MsgCount(a, b) == if {a, b} == {u, v} then 0 else p.MsgCount(a, b)
  {
  }

  /** Out of the queue, unmarked, and with the fee back if one was paid. */
  ghost predicate LeavesQueue(w: World, w': World, u: UserId, reason: Reason) {
    && !w'.queue.Waiting(u) && u !in w'.queue.desired && OthersKeepPlace(w, w', u)
    && w'.pairs == w.pairs.(payer := w.pairs.payer - {u}) && OnlyChatSide(w, w')
    && (if u in w.pairs.payer then Booked(w.db, w'.db, u, CHAT_COST, reason) else w'.db == w.db)
  }

  lemma LeaveQueueOutcome(w: World, u: UserId, reason: Reason)
    requires u in w.pairs.payer ==> u in w.db.users
    ensures LeavesQueue(w, LeaveQueue(w, u, reason), u, reason)
  {
    if u in w.pairs.payer {
      RefundBooks(w.db, u, CHAT_COST, reason);
    } else {
      assert w.pairs.payer - {u} == w.pairs.payer;
    }
    hide Refund, Booked;
  }

  /** Stopping: a waiting user leaves the queue with its fee, a paired one ends its chat, and
      for anybody else nothing happens. */
  ghost predicate StopMeans(w: World, w': World, u: UserId) {
    if w.queue.Waiting(u) then LeavesQueue(w, w', u, SearchCancelRefund)
    else match w.pairs.Partner(u)
      case Some(v) => ChatEnds(w, w', u, v) && w'.queue == w.queue
      case None => w' == w
  }

  lemma StopOutcome(w: World, u: UserId)
    requires WorldInv(w)
    ensures StopMeans(w, StopChat(w, u), u)
  {
    hide LeavesQueue, ChatEnds, LeaveQueue, EndChat;
    if w.queue.Waiting(u) {
      assert u in w.pairs.payer ==> u in w.db.users;
      LeaveQueueOutcome(w, u, SearchCancelRefund);
    } else if w.pairs.Partner(u).Some? {
      EndChatOutcome(w, u, w.pairs.Partner(u).value);
    }
  }

  /** The timeout of a search: like stopping for a user still waiting, nothing for others. */
  ghost predicate QueueTimeoutMeans(w: World, w': World, u: UserId) {
    if w.queue.Waiting(u) then LeavesQueue(w, w', u, SearchTimeoutRefund) else w' == w
  }

  lemma QueueTimeoutOutcome(w: World, u: UserId)
    requires WorldInv(w)
    ensures QueueTimeoutMeans(w, QueueTimeout(w, u), u)
  {
    hide LeavesQueue, LeaveQueue;
    if w.queue.Waiting(u) {
      assert u in w.pairs.payer ==> u in w.db.users;
      LeaveQueueOutcome(w, u, SearchTimeoutRefund);
    }
  }

  /** /next first ends the chat, if there is one, and leaves the queue without a refund. */
  ghost predicate LeavesForNext(w: World, w1: World, u: UserId) {
    && !w1.queue.Waiting(u) && u !in w1.queue.desired && OthersKeepPlace(w, w1, u)
    && match w.pairs.Partner(u)
       case Some(v) => ChatEnds(w, w1, u, v)
       case None => w1.db == w.db && w1.pairs == w.pairs && OnlyChatSide(w, w1)
  }

  lemma NextBaseOutcome(w: World, u: UserId)
    requires WorldInv(w)
    ensures LeavesForNext(w, NextBase(w, u), u)
  {
    hide EndChat;
    if w.pairs.Partner(u).Some? { EndChatOutcome(w, u, w.pairs.Partner(u).value); }
    hide WorldInv;
    DequeueTouchesOne(w.queue, u);
  }

  /** And then starts a chat with the saved preference, if there is one. */
  ghost predicate NextMeans(w: World, w': World, u: UserId, own: Option<Gender>, pref: Option<Option<Gender>>, now: real) {
    exists w1 :: LeavesForNext(w, w1, u) && if pref.None? then w' == w1 else StartsChat(w1, w', u, own, pref.value, now)
  }

  lemma NextOutcome(w: World, u: UserId, own: Option<Gender>, pref: Option<Option<Gender>>, now: real)
    requires WorldInv(w)
    ensures NextMeans(w, NextChat(w, u, own, pref, now), u, own, pref, now)
  {
    hide WorldInv, EndChat, LeavesForNext, StartsChat, PayAndMatch;
    NextBaseOutcome(w, u);
    var w1 := NextBase(w, u);
    if pref.Some? { PayAndMatchOutcome(w1, u, own, pref.value, now); }
    assert LeavesForNext(w, w1, u);
  }

  // ---------------------------------------------------------------- messages and the purge

  /** A message of a paired user counts once for its pair and for no other. */
  ghost predicate MessageMeans(w: World, w': World, u: UserId) {
    match w.pairs.Partner(u)
    case None => w' == w
    case Some(v) =>
      && w' == w.(pairs := w'.pairs) && w'.pairs.partner == w.pairs.partner && w'.pairs.payer == w.pairs.payer
      && forall a, b :: w'.pairs.MsgCount(a, b) == w.pairs.MsgCount(a, b) + (if {a, b} == {u, v} then 1 else 0)
  }

  lemma MessageOutcome(w: World, u: UserId)
    ensures MessageMeans(w, Message(w, u), u)
  {
  }

  /** The purge takes out exactly the entries no younger than the cutoff; wishes, pairs, flags
      and coins stay. */
  ghost predicate PurgeQueueMeans(w: World, w': World, cutoff: real) {
    && w' == w.(queue := w'.queue) && w'.queue.desired == w.queue.desired
    && forall g, u :: Get(w'.queue.Bucket(g), u)
         == if u in w.queue.Bucket(g) && w.queue.Bucket(g)[u] <= cutoff then None else Get(w.queue.Bucket(g), u)
  }

  lemma PurgeQueueOutcome(w: World, cutoff: real)
    ensures PurgeQueueMeans(w, PurgeQueue(w, cutoff), cutoff)
  {
  }
}
