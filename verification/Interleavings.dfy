/** What happens when a handler passes its guard, the user does something else, and only then
    the handler's transaction or script runs. The check inside the create and join
    transactions is there for this; the 1:1 script and the room queue have none. */
module Interleavings {
  import opened Basics
  import opened SortedSets
  import opened Ledger
  import opened Database
  import opened RoomInvariant
  import opened RoomTransactions
  import opened MatchQueue
  import opened World
  import opened ChatHandlers
  import opened RoomHandlers
  import opened WorldInvariant
  import opened ChatSteps
  import opened ChatEndings
  import opened MissingGuards
  import opened RoomSteps
  import opened RoomFlows
  import opened BotRuns

  // ---------------------------------------------------------------- the rest of three handlers

  /** A room search after its guard. */
  function LateSearch(w: World, u: UserId, filter: Pref, pick: Option<RoomId>, now: real): World {
    match Deduct(w.db, u, ROOM_SEARCH_COST, RoomSearch)
    case None => w
    case Some(db) => TryJoinRoom(w.(db := db), u, filter, pick, now)
  }

  /** The creation of a room after its guard. */
  function LateCreate(w: World, u: UserId, pref: Pref, capacity: int, now: real): World {
    var (db, res) := CreateRoom(w.db, u, pref, capacity, RedisConflict(w, u), now);
    match res
    case Err(_) => w
    case Ok(r) => Fill(w.(db := db, mirror := w.mirror.(room := w.mirror.room[u := r])), r)
  }

  /** The start of a 1:1 chat after its guards. */
  function LateChat(w: World, u: UserId, own: Option<Gender>, want: Option<Gender>, now: real): World {
    PayAndMatch(w, u, own, want, now)
  }

  /** Undisturbed, guard and rest make the handler. */
  lemma GuardThenRest(w: World, u: UserId)
    ensures forall f, pick, now ::
              SearchRoom(w, u, f, pick, now) == if CannotStartRoomFlow(w, u) then w else LateSearch(w, u, f, pick, now)
    ensures forall f, n, now ::
              CreateFlow(w, u, f, n, now) == if CannotStartRoomFlow(w, u) then w else LateCreate(w, u, f, n, now)
    ensures forall own, want, now ::
              StartChat(w, u, own, want, now) == if OnChatSide(w, u) || OnRoomSide(w, u) then w else LateChat(w, u, own, want, now)
  {
    hide TryJoinRoom, Deduct, CreateRoom, Fill, PayAndMatch;
  }

  // ---------------------------------------------------------------- creating a room

  /** The check inside the transaction is enough: whatever its user has done meanwhile,
      creating a room keeps the invariant. */
  lemma LateCreateKeeps(w: World, u: UserId, pref: Pref, capacity: int, now: real)
    requires WorldInv(w)
    ensures WorldInv(LateCreate(w, u, pref, capacity, now))
  {
    hide WorldInv, CreateRoom, Fill;
    if RedisConflict(w, u) == None {
      CreatedWorld(w, u, pref, capacity, now);
      var (db, res) := CreateRoom(w.db, u, pref, capacity, None, now);
      if res.Ok? { FillKeeps(w.(db := db, mirror := w.mirror.(room := w.mirror.room[u := res.value])), res.value); }
    } else {
      ConflictRefuses(w.db, u, pref, capacity, RedisConflict(w, u), now);
    }
  }

  lemma ConflictRefuses(db: Db, u: UserId, pref: Pref, capacity: int, conflict: Option<Error>, now: real)
    requires conflict.Some?
    ensures CreateRoom(db, u, pref, capacity, conflict, now).1.Err?
  {
  }

  // ---------------------------------------------------------------- searching for a room

  /** The caller ends up in the queue: no room was found, or the one found is gone, or full,
      or the caller is in a room already. A conflict is noticed before a full room. */
  predicate Enqueues(w: World, u: UserId, pick: Option<RoomId>) {
    || pick.None? || !IsOpen(w.db, pick.value) || ActiveRoom(w.db, u).Some?
    || (!OnChatSide(w, u) && !HasSpace(w.db, pick.value))
  }

  /** The caller enters the queue although it has got onto the 1:1 side meanwhile, or waits
      under another filter. */
  predicate LateSearchBreaks(w: World, u: UserId, filter: Pref, pick: Option<RoomId>) {
    && CanPay(w.db, u, ROOM_SEARCH_COST) && Enqueues(w, u, pick)
    && (OnChatSide(w, u) || (w.seekers.Filter(u).Some? && w.seekers.Filter(u) != Some(filter)))
  }

  lemma RenewedEntry(s: Seekers, u: UserId, p: Pref, now: real)
    requires u in s.Bucket(p)
    ensures var s' := EnqueueSeeker(s, u, p, now);
            && (forall q, v :: v in s'.Bucket(q) <==> v in s.Bucket(q)) && (forall v :: s'.Filter(v) == s.Filter(v))
            && (forall v :: s'.Jobs(v) == if v == u then s.Jobs(u) + multiset{p} else s.Jobs(v))
            && s'.jobs.Keys == s.jobs.Keys + {u}
  {
  }

  /** The same filter again: the entry is renewed and a second job scheduled. */
  lemma EnqueueAgain(db: Db, s: Seekers, u: UserId, p: Pref, now: real)
    requires SeekersInv(db, s) && s.Filter(u) == Some(p) && PaidAhead(db.ledger, s, u)
    ensures SeekersInv(db, EnqueueSeeker(s, u, p, now))
    ensures forall v :: EnqueueSeeker(s, u, p, now).Filter(v) == s.Filter(v)
  {
    SeekerAt(db, s, u);
    var s' := EnqueueSeeker(s, u, p, now);
    RenewedEntry(s, u, p, now);
    hide Count, Seekers.Filter, Seekers.Bucket, EnqueueSeeker, Seekers.Jobs;
    forall v ensures RoomFeeOk(db.ledger, s', v) { assert RoomFeeOk(db.ledger, s, v); }
    hide RoomFeeOk;
    forall q, v ensures Placed(db.users.Keys, s', q, v) { assert Placed(db.users.Keys, s, q, v); }
  }

  /** Two filters at once. */
  lemma EnqueueTwice(db: Db, s: Seekers, u: UserId, p: Pref, now: real)
    requires SeekersInv(db, s) && s.Filter(u).Some? && s.Filter(u) != Some(p)
    ensures !SeekersInv(db, EnqueueSeeker(s, u, p, now))
  {
    var q := s.Filter(u).value;
    SeekerAt(db, s, u);
    var s' := EnqueueSeeker(s, u, p, now);
    assert u in s'.Bucket(p) && u in s'.Bucket(q);
    assert !Placed(db.users.Keys, s', p, u) || !Placed(db.users.Keys, s', q, u);
  }

  lemma EnqueueExactly(w: World, u: UserId, filter: Pref, now: real)
    requires WorldInv(w) && u in w.db.users && PaidAhead(w.db.ledger, w.seekers, u)
    ensures WorldInv(w.(seekers := EnqueueSeeker(w.seekers, u, filter, now)))
            <==> !(OnChatSide(w, u) || (w.seekers.Filter(u).Some? && w.seekers.Filter(u) != Some(filter)))
  {
    hide Count, Sum, RoomInv, LedgerInv, NoMissedMatch, PairsInv, SeekersInv, MirrorInv, PaidAhead, EnqueueSeeker, Seekers.Filter,
      RequestsInv, SearchFees;
    var s := EnqueueSeeker(w.seekers, u, filter, now);
    if w.seekers.Filter(u).None? {
      EnqueueKeeps(w.db, w.seekers, u, filter, now);
      EnqueueFilters(w.seekers, u, filter, now);
      if OnChatSide(w, u) {
        assert OnChatSide(w.(seekers := s), u) && OnRoomSide(w.(seekers := s), u);
      } else {
        RoomSide(w, w.db, s, w.mirror);
      }
    } else if w.seekers.Filter(u) == Some(filter) {
      EnqueueAgain(w.db, w.seekers, u, filter, now);
      RoomSide(w, w.db, s, w.mirror);
    } else {
      EnqueueTwice(w.db, w.seekers, u, filter, now);
    }
  }

  /** The fee of a search refused for a conflict goes back. */
  lemma ConflictRefundKeeps(w: World, u: UserId)
    requires WorldInv(w) && u in w.db.users && PaidAhead(w.db.ledger, w.seekers, u)
    ensures WorldInv(RefundWorld(w, u, ROOM_SEARCH_COST, RoomConflictRefund))
  {
    hide Count, Sum, RoomInv, LedgerInv, NoMissedMatch, PairsInv, MirrorInv, Seekers.Filter, Seekers.Bucket;
    RoomRefundStep(w.db, u, RoomConflictRefund);
    var db := Refund(w.db, u, ROOM_SEARCH_COST, RoomConflictRefund);
    forall v ensures RoomFeeOk(db.ledger, w.seekers, v) { assert RoomFeeOk(w.db.ledger, w.seekers, v); }
    assert MirrorInv(db, w.mirror) by { MirrorFrame(w.db, db, w.mirror); }
    RoomSide(w, db, w.seekers, w.mirror);
  }

  lemma MirrorFrame(db: Db, db': Db, m: Mirror)
    requires MirrorInv(db, m) && SameRooms(db, db')
    ensures MirrorInv(db', m)
  {
  }

  /** How the transaction answers a caller that has paid. */
  lemma JoinAnswers(w: World, u: UserId, r: RoomId)
    requires u in w.db.users
    ensures var res := JoinRoom(w.db, u, r, RedisConflict(w, u)).1;
            && (res.Err? && res.error != In1to1 && res.error != InQueue <==> Enqueues(w, u, Some(r)))
            && (res.Err? && (res.error == In1to1 || res.error == InQueue) ==> OnChatSide(w, u))
  {
  }

  /** A search whose guard has been passed some time ago keeps the invariant unless it puts
      the caller into the queue: the check inside the join transaction is enough for those it
      would let into a room, and they have their fee back. */
  lemma LateSearchExactly(w: World, u: UserId, filter: Pref, pick: Option<RoomId>, now: real)
    requires WorldInv(w)
    ensures WorldInv(LateSearch(w, u, filter, pick, now)) <==> !LateSearchBreaks(w, u, filter, pick)
  {
    hide WorldInv, JoinRoom, SeekersInv, Counted, PaidAhead, EnqueueSeeker, RefundWorld, Post, Enqueues, Seekers.Filter;
    PayRoomSearch(w, u);
    var d := Deduct(w.db, u, ROOM_SEARCH_COST, RoomSearch);
    if d.Some? {
      SearchCharge(w, u);
      WorldParts(w);
      PaidSeekers(w.db, d.value, w.seekers, u);
      var w1 := w.(db := d.value);
      PaidIsSame(w, w1, u, pick);
      EnqueueExactly(w1, u, filter, now);
      if pick.Some? {
        JoinAnswers(w1, u, pick.value);
        JoinedKeeps(w1, u, pick.value);
        ConflictRefundKeeps(w1, u);
      } else {
        assert Enqueues(w1, u, pick) by { NothingFound(w1, u); }
      }
    }
  }

  /** What the check inside the join transaction does for a caller that has got onto the 1:1
      side: no room, no wait, and the fee back. */
  lemma ConflictGivesBack(w: World, u: UserId, filter: Pref, pick: Option<RoomId>, now: real)
    requires OnChatSide(w, u) && CanPay(w.db, u, ROOM_SEARCH_COST) && !Enqueues(w, u, pick)
    ensures var w' := LateSearch(w, u, filter, pick, now);
            && w' == w.(db := w'.db) && w'.db == w.db.(ledger := w'.db.ledger)
            && w'.db.ledger == w.db.ledger + [Txn(u, -ROOM_SEARCH_COST, RoomSearch)] + [Txn(u, ROOM_SEARCH_COST, RoomConflictRefund)]
  {
    var w' := LateSearch(w, u, filter, pick, now);
    assert w'.db.users == w.db.users;
  }

  lemma NothingFound(w: World, u: UserId)
    ensures Enqueues(w, u, None)
  {
  }

  /** Paying changes nothing the rest of the search looks at. */
  lemma PaidIsSame(w: World, w1: World, u: UserId, pick: Option<RoomId>)
    requires w1 == w.(db := w1.db) && SameRooms(w.db, w1.db)
    ensures Enqueues(w1, u, pick) == Enqueues(w, u, pick) && OnChatSide(w1, u) == OnChatSide(w, u)
  {
  }

  // ---------------------------------------------------------------- starting a chat

  /** The caller enters the 1:1 side although it has got onto the room side, found a partner,
      or joined the queue and now misses or makes a match besides its entry. */
  ghost predicate LateChatBreaks(w: World, u: UserId, own: Option<Gender>, want: Option<Gender>) {
    && own.Some? && (want.Some? ==> CanPay(w.db, u, CHAT_COST))
    && (|| OnRoomSide(w, u) || w.pairs.Partner(u).Some?
        || (w.queue.Waiting(u)
            && (SomebodySuits(w.queue, u, own.value, want) || LeavesStaleEntry(w.queue, u, own.value, want))))
  }

  /** A paired caller is paired anew over the old partner's head, or waits while paired. */
  lemma PairedCallerBreaks(w: World, u: UserId, own: Gender, want: Option<Gender>, now: real)
    requires WorldInv(w) && w.pairs.Partner(u).Some?
    ensures !WorldInv(TryMatch(w, u, Some(own), want, now))
  {
    hide DbInv, NoMissedMatch, Exclusive, SearchFees, SeekersInv, MirrorInv, RequestsInv, FirstMatch, Candidates;
    FoundIsWaiting(w.queue, u, own, want);
    var found := FirstMatch(w.queue, u, own, Candidates(w.queue, want));
    var w' := TryMatch(w, u, Some(own), want, now);
    var v := w.pairs.Partner(u).value;
    if found.Some? {
      assert w'.pairs.Partner(u) == found && w.pairs.Partner(v) == Some(u);
      assert found.value != v;
      assert w'.pairs.Partner(v) == Some(u);
    } else {
      assert w'.pairs.Partner(u) == Some(v) && w'.queue.Waiting(u);
    }
  }

  lemma TryMatchExactly(w: World, u: UserId, own: Gender, want: Option<Gender>, now: real)
    requires WorldInv(w)
    ensures WorldInv(TryMatch(w, u, Some(own), want, now)) <==>
            !(|| OnRoomSide(w, u) || w.pairs.Partner(u).Some?
              || (w.queue.Waiting(u) && (SomebodySuits(w.queue, u, own, want) || LeavesStaleEntry(w.queue, u, own, want))))
  {
    hide DbInv, NoMissedMatch, PairsInv, SearchFees, SeekersInv, MirrorInv, RequestsInv, TryMatch, SomebodySuits, LeavesStaleEntry;
    if OnRoomSide(w, u) {
      TryMatchEnters(w, u, Some(own), want, now);
    } else if w.pairs.Partner(u).Some? {
      PairedCallerBreaks(w, u, own, want, now);
    } else if w.queue.Waiting(u) {
      WaitingCallerExactly(w, u, Some(own), want, now);
    } else {
      TryMatchKeeps(w, u, Some(own), want, now);
    }
  }

  /** The 1:1 script checks nothing: a start whose guards have been passed some time ago
      keeps the invariant exactly if it comes to nothing, or they would still be passed, or
      the caller has only joined the queue and renews its entry there. */
  lemma LateChatExactly(w: World, u: UserId, own: Option<Gender>, want: Option<Gender>, now: real)
    requires WorldInv(w)
    ensures WorldInv(LateChat(w, u, own, want, now)) <==> !LateChatBreaks(w, u, own, want)
  {
    hide WorldInv, TryMatch, SomebodySuits, LeavesStaleEntry, OnRoomSide;
    PaySearchKeeps(w, u);
    var paid := if want.Some? then PaySearch(w, u) else Some(w);
    if paid.Some? {
      if own.Some? { TryMatchExactly(paid.value, u, own.value, want, now); } else { NoGenderKeeps(paid.value, u, want, now); }
    }
  }

  // ---------------------------------------------------------------- runs

  /** A whole event, or the rest of a handler whose guard was passed some time before. */
  datatype Move =
    | Whole(e: Event)
    | SearchCommits(u: UserId, filter: Pref, pick: Option<RoomId>, now: real)
    | CreateCommits(u: UserId, pref: Pref, capacity: int, now: real)
    | ChatCommits(u: UserId, own: Option<Gender>, want: Option<Gender>, now: real)

  function Make(w: World, m: Move): World {
    match m
    case Whole(e) => Apply(w, e)
    case SearchCommits(u, filter, pick, now) => LateSearch(w, u, filter, pick, now)
    case CreateCommits(u, pref, capacity, now) => LateCreate(w, u, pref, capacity, now)
    case ChatCommits(u, own, want, now) => LateChat(w, u, own, want, now)
  }

  ghost predicate Harms(w: World, m: Move) {
    match m
    case Whole(e) => Breaks(w, e)
    case SearchCommits(u, filter, pick, _) => LateSearchBreaks(w, u, filter, pick)
    case CreateCommits(_, _, _, _) => false
    case ChatCommits(u, own, want, _) => LateChatBreaks(w, u, own, want)
  }

  /** Of all that can happen between and within handlers, exactly this does harm. */
  lemma MoveExactly(w: World, m: Move)
    requires WorldInv(w) && (m.Whole? ==> CanHappen(w, m.e))
    ensures WorldInv(Make(w, m)) <==> !Harms(w, m)
  {
    hide WorldInv, Apply, CanHappen, Breaks, LateSearch, LateCreate, LateChat, LateSearchBreaks, LateChatBreaks;
    match m
    case Whole(e) => StepExactly(w, e);
    case SearchCommits(u, filter, pick, now) => LateSearchExactly(w, u, filter, pick, now);
    case CreateCommits(u, pref, capacity, now) => LateCreateKeeps(w, u, pref, capacity, now);
    case ChatCommits(u, own, want, now) => LateChatExactly(w, u, own, want, now);
  }

  function MakeAll(w: World, ms: seq<Move>): World
    decreases |ms|
  {
    if ms == [] then w else MakeAll(Make(w, ms[0]), ms[1..])
  }

  ghost predicate Harmless(w: World, ms: seq<Move>)
    decreases |ms|
  {
    ms != [] ==> (ms[0].Whole? ==> CanHappen(w, ms[0].e)) && !Harms(w, ms[0]) && Harmless(Make(w, ms[0]), ms[1..])
  }

  lemma {:induction false} MovesKeep(w: World, ms: seq<Move>)
    requires WorldInv(w) && Harmless(w, ms)
    ensures WorldInv(MakeAll(w, ms))
    decreases |ms|
  {
    hide WorldInv, Make, CanHappen, Harms;
    if ms != [] {
      MoveExactly(w, ms[0]);
      MovesKeep(Make(w, ms[0]), ms[1..]);
    }
  }

  /** The invariant survives every interleaving at the commits, and fails first at a move
      that does harm. */
  lemma EveryInterleavingIsGood(ms: seq<Move>)
    requires Harmless(EMPTY, ms)
    ensures WorldInv(MakeAll(EMPTY, ms))
  {
    hide WorldInv;
    EmptyIsGood();
    MovesKeep(EMPTY, ms);
  }

  // ---------------------------------------------------------------- the fill loop heals

  /** In whatever state: the turn of a seeker who has got onto the 1:1 side takes it off the
      queue, gives its fee back, and lets it into no room. */
  lemma TurnHeals(w: World, r: RoomId, u: UserId, p: Pref)
    requires SeekersInv(w.db, w.seekers) && u in w.seekers.Bucket(p) && OnChatSide(w, u)
    requires IsOpen(w.db, r) && ActiveRoom(w.db, u) == None
    ensures var (db, res) := JoinRoom(w.db, u, r, RedisConflict(w, u));
            var w1 := Settle(w, r, u, p, db, res);
            && res.Err? && !RoomAtFault(res.error) && db == w.db
            && !OnRoomSide(w1, u) && (forall v | v != u :: OnRoomSide(w1, v) == OnRoomSide(w, v))
            && (forall v :: OnChatSide(w1, v) == OnChatSide(w, v))
            && w1.db == Refund(w.db, u, ROOM_SEARCH_COST, RoomConflictRefund) && u in w.db.users
  {
    hide Count;
    SeekerIsUser(w.db, w.seekers, u, p);
    var (db, res) := JoinRoom(w.db, u, r, RedisConflict(w, u));
    SettleFilters(w, r, u, p, db, res);
    hide SeekersInv, Seekers.Filter, Seekers.Bucket, DequeueSeeker, CancelJobs;
  }
}
