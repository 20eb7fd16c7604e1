/** Concrete runs after which somebody has paid for nothing, or keeps a room after a ban. Who
    is dropped when in general is stated in `SearchFates`. */
module LostCoins {
  import opened Basics
  import opened SortedSets
  import opened Ledger
  import opened Database
  import opened RoomInvariant
  import opened MatchQueue
  import opened MatchOrder
  import opened World
  import opened ChatHandlers
  import opened RoomHandlers
  import opened RequestHandlers
  import opened WorldInvariant
  import opened FillOrder
  import opened FillExactly
  import opened BotRuns
  import opened NoMissedRoomRuns
  import opened SearchFates
  import opened Effects
  import opened MemberOutcomes
  import opened Counterexamples

  // ---------------------------------------------------------------- room searches

  /** "a", in the room it owns, pays for a search and waits. */
  function OwnerSearches(): seq<Event> {
    RoomOfA() + [RoomSearched("a", AnyPref, Some(1), 1.0)]
  }

  ghost predicate OwnerWaits(w: World) {
    && w.db.users.Keys >= {"a"} && w.db.users["a"] == Account(7, Some(1))
    && w.db.rooms == map[1 := Room("a", AnyPref, 5, Open, 0.0)] && MembersOf(w.db, 1) == {"a"}
    && w.seekers.male == w.seekers.female == map[] && w.seekers.any == map["a" := 1.0]
    && w.db.ledger == [Txn("a", 20, ReportReward)] + [Txn("a", -20, RoomCreate)] + [Txn("a", -3, RoomSearch)]
  }

  lemma OwnerPays(w: World)
    requires OwnsRoom(w)
    ensures OwnerWaits(SearchRoom(w, "a", AnyPref, Some(1), 1.0))
  {
    assert w.seekers.any["a" := 1.0] == map["a" := 1.0];
  }

  lemma OwnerSearchesState()
    ensures var w := Run(EMPTY, OwnerSearches());
            AllowedRun(EMPTY, OwnerSearches()) && OwnerWaits(w) && WorldInv(w)
  {
    hide Run, AllowedRun, OwnsRoom, OwnerWaits, SearchRoom, WorldInv;
    RoomOfAState();
    OwnerPays(Run(EMPTY, RoomOfA()));
    RunSnoc(EMPTY, RoomOfA(), RoomSearched("a", AnyPref, Some(1), 1.0));
    EveryReachableStateIsGood(OwnerSearches());
  }

  /** The next sweep finds the entry fresh, offers "a" a place in its own room, and takes it
      off the queue when the join is refused. */
  lemma OwnerIsDropped()
    ensures var w := Run(EMPTY, OwnerSearches());
            var e := QueueSwept(0.0, [1]);
            && AllowedRun(EMPTY, OwnerSearches()) && Allowed(w, e) && ListsSpareRooms(w.db, e.rooms)
            && Drops(w, e, "a") && !Stale(w, e, "a")
            && Paid(Apply(w, e), "a") == 1 && PaidBack(Apply(w, e), "a") == 0
  {
    hide Run, AllowedRun, WorldInv, FillAll, Drops, DroppedBy, Sum, Count;
    OwnerSearchesState();
    var w := Run(EMPTY, OwnerSearches());
    DropsExactly(w, QueueSwept(0.0, [1]), "a");
    OwnersTurnComes(w);
    SweepMovesNoMoney(w, 0.0, [1], "a");
    PaidOnce(w);
  }

  lemma OwnersTurnComes(w: World)
    requires OwnerWaits(w)
    ensures DroppedBy(w, QueueSwept(0.0, [1]), "a") && !Stale(w, QueueSwept(0.0, [1]), "a") && ListsSpareRooms(w.db, [1])
  {
    var w1 := w.(seekers := PurgeSeekers(w.seekers, 0.0));
    assert w1.seekers.any == map["a" := 1.0] && w1.seekers.male == w1.seekers.female == map[];
    assert FreeAhead(w1, AnyPref, "a") == {};
    assert DroppedByFill(w1, 1, "a");
  }

  lemma SweepMovesNoMoney(w: World, cutoff: real, rooms: seq<RoomId>, u: UserId)
    requires WorldInv(w)
    ensures Paid(Sweep(w, cutoff, rooms), u) == Paid(w, u) && PaidBack(Sweep(w, cutoff, rooms), u) == PaidBack(w, u)
  {
    hide WorldInv, Count, FillAll;
    SweepServes(w, cutoff, rooms, u);
  }

  lemma PaidOnce(w: World)
    requires OwnerWaits(w)
    ensures Paid(w, "a") == 1 && PaidBack(w, "a") == 0
  {
    Append([], Txn("a", 20, ReportReward));
    Append([Txn("a", 20, ReportReward)], Txn("a", -20, RoomCreate));
    Append([Txn("a", 20, ReportReward)] + [Txn("a", -20, RoomCreate)], Txn("a", -3, RoomSearch));
    assert [] + [Txn("a", 20, ReportReward)] == [Txn("a", 20, ReportReward)];
  }

  /** "a" searches while there is no room at all, and the sweep finds the entry too old. */
  function LonelySearch(): seq<Event> {
    [UserJoins("a")] + [RoomSearched("a", AnyPref, None, 1.0)]
  }

  lemma StaleSeekerIsDropped()
    ensures var w := Run(EMPTY, LonelySearch());
            var e := QueueSwept(1.0, []);
            && AllowedRun(EMPTY, LonelySearch()) && Allowed(w, e)
            && Drops(w, e, "a") && !InRoom(w, "a") && Coins(Apply(w, e).db, "a") == INITIAL_COINS - ROOM_SEARCH_COST
  {
    hide Run, AllowedRun, SearchRoom, Sweep, Drops, InRoom, Coins;
    RunSnoc(EMPTY, [], UserJoins("a"));
    RunSnoc(EMPTY, [UserJoins("a")], RoomSearched("a", AnyPref, None, 1.0));
    assert [] + [UserJoins("a")] == [UserJoins("a")];
    NothingYet();
    SearchedAlone(Apply(EMPTY, UserJoins("a")));
  }

  lemma NothingYet()
    ensures AllowedRun(EMPTY, []) && Run(EMPTY, []) == EMPTY
  {
  }

  lemma SearchedAlone(w: World)
    requires w == EMPTY.(db := EMPTY.db.(users := map["a" := Account(10, None)]))
    ensures var w1 := SearchRoom(w, "a", AnyPref, None, 1.0);
            Drops(w1, QueueSwept(1.0, []), "a") && !InRoom(w1, "a")
            && Coins(Sweep(w1, 1.0, []).db, "a") == INITIAL_COINS - ROOM_SEARCH_COST
  {
    var w1 := SearchRoom(w, "a", AnyPref, None, 1.0);
    assert w1.seekers.any == map["a" := 1.0];
    assert Sweep(w1, 1.0, []).seekers.any == map[];
  }

  // ---------------------------------------------------------------- a banned owner

  /** "a" is banned: the room is closed, "a" stays its owner and member, and only the mirror
      forgets it. */
  lemma BannedOwnerKeepsRoom()
    ensures var w := Run(EMPTY, RoomOfA() + [UserBanned("a")]);
            && AllowedRun(EMPTY, RoomOfA() + [UserBanned("a")])
            && ActiveRoom(w.db, "a") == Some(1) && IsMember(w.db, 1, "a") && "a" !in w.mirror.room
            && 1 in w.db.rooms && w.db.rooms[1].owner == "a" && w.db.rooms[1].status == Closed
  {
    hide Run, AllowedRun, WorldInv, EnforceBan;
    RoomOfAState();
    var w := Run(EMPTY, RoomOfA());
    RunSnoc(EMPTY, RoomOfA(), UserBanned("a"));
    BannedOutcome(w, "a");
    OwnerBannedRoom(w);
  }

  lemma OwnerBannedRoom(w: World)
    requires OwnsRoom(w)
    ensures EnforceBan(w, "a").db.rooms == w.db.rooms[1 := Room("a", AnyPref, 5, Closed, 0.0)]
  {
  }

  // ---------------------------------------------------------------- a request accepted too late

  /** "a" sends "b" a request, "b" joins the queue, and then accepts. */
  function AcceptedFromTheQueue(): seq<Event> {
    [UserJoins("a")] + [UserJoins("b")] + [RequestSent("q", "a", "b", true, 0.0)] + [ChatStarts("b", Some(Male), None, 1.0)]
    + [RequestAccepted("q", "b")]
  }

  /** The request is gone, the two are not paired, and "a" is two coins short. */
  lemma AcceptedTooLate()
    ensures var w := Run(EMPTY, AcceptedFromTheQueue());
            && AllowedRun(EMPTY, AcceptedFromTheQueue())
            && w.requests.store == map[] && w.requests.log == [Ended("a", Cancelled)]
            && w.pairs.Partner("a") == None && Coins(w.db, "a") == INITIAL_COINS - CHAT_COST
  {
    hide Run, AllowedRun, SendRequest, StartChat, AcceptRequest, AsksB, Queue.Waiting, Coins, Pairs.Partner;
    TwoUsers();
    var es := [UserJoins("a")] + [UserJoins("b")];
    RunSnoc(EMPTY, es, RequestSent("q", "a", "b", true, 0.0));
    SentByA();
    var w1 := SendRequest(TWO_USERS, "q", "a", "b", true, 0.0);
    RunSnoc(EMPTY, es + [RequestSent("q", "a", "b", true, 0.0)], ChatStarts("b", Some(Male), None, 1.0));
    BQueues(w1);
    var w2 := StartChat(w1, "b", Some(Male), None, 1.0);
    RunSnoc(EMPTY, es + [RequestSent("q", "a", "b", true, 0.0)] + [ChatStarts("b", Some(Male), None, 1.0)], RequestAccepted("q", "b"));
    CancelledBecauseBWaits(w2);
  }

  ghost predicate AsksB(w: World) {
    && w.requests.store == map["q" := Request("a", "b")] && w.requests.log == []
    && "a" in w.db.users && w.db.users["a"] == Account(8, None) && ActiveRoom(w.db, "b") == None
    && w.seekers == EMPTY.seekers && w.pairs == EMPTY.pairs
  }

  lemma SentByA()
    ensures var w := SendRequest(TWO_USERS, "q", "a", "b", true, 0.0);
            AsksB(w) && w.queue == EMPTY.queue && "q" !in TWO_USERS.requests.store
  {
    assert EMPTY.requests.store["q" := Request("a", "b")] == map["q" := Request("a", "b")];
  }

  lemma BQueues(w: World)
    requires AsksB(w) && w.queue == EMPTY.queue
    ensures var w' := StartChat(w, "b", Some(Male), None, 1.0);
            AsksB(w') && w'.queue.Waiting("b") && w'.requests.store == map["q" := Request("a", "b")]
  {
    SearchFindsEarliest(w.queue, "b", Male, None);
    hide FirstMatch, Candidates;
  }

  lemma CancelledBecauseBWaits(w: World)
    requires AsksB(w) && w.queue.Waiting("b")
    ensures var w' := AcceptRequest(w, "q", "b");
            && w'.requests.store == map[] && w'.requests.log == [Ended("a", Cancelled)]
            && w'.pairs.Partner("a") == None && Coins(w'.db, "a") == INITIAL_COINS - CHAT_COST
  {
    assert map["q" := Request("a", "b")] - {"q"} == map[];
  }
}
