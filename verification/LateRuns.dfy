/** Concrete runs in which a guard is passed too early: one in which the check inside the join
    transaction gives the fee back, and one in which the fill loop mends what the 1:1 script
    let through. */
module LateRuns {
  import opened Basics
  import opened SortedSets
  import opened Ledger
  import opened Database
  import opened MatchQueue
  import opened MatchOrder
  import opened World
  import opened ChatHandlers
  import opened RoomHandlers
  import opened WorldInvariant
  import opened FillOrder
  import opened BotRuns
  import opened Interleavings
  import opened Effects
  import opened Counterexamples

  lemma MakeSnoc(w: World, ms: seq<Move>, m: Move)
    ensures MakeAll(w, ms + [m]) == Make(MakeAll(w, ms), m)
    decreases |ms|
  {
    hide Make;
    if ms == [] {
      assert (ms + [m])[1..] == [];
    } else {
      assert (ms + [m])[1..] == ms[1..] + [m];
      MakeSnoc(Make(w, ms[0]), ms[1..], m);
    }
  }

  // ---------------------------------------------------------------- a search that commits too late

  /** "a" has a room; "b" starts a room search and, before it commits, a 1:1 chat. */
  function FirstAThenB(): seq<Event> {
    RoomOfA() + [UserJoins("b")] + [ChatStarts("b", Some(Male), None, 1.0)]
  }

  ghost predicate BWaitsBesideRoom(w: World) {
    && IsOpen(w.db, 1) && HasSpace(w.db, 1) && w.queue.Waiting("b") && ActiveRoom(w.db, "b") == None
    && "b" in w.db.users && w.db.users["b"].coins == 10
  }

  lemma BQueuesUp(w: World)
    requires OwnsRoom(w) && "b" !in w.db.users
    ensures BWaitsBesideRoom(StartChat(Apply(w, UserJoins("b")), "b", Some(Male), None, 1.0))
  {
    var w1 := Apply(w, UserJoins("b"));
    SearchFindsEarliest(w1.queue, "b", Male, None);
    hide FirstMatch, Candidates;
    assert MembersOf(w1.db, 1) == {"a"};
    assert w1.pairs.Partner("b") == None && !w1.queue.Waiting("b");
    assert w1.seekers.Filter("b") == None;
  }

  /** The search that was let into the flow meets the conflict, and the fee comes back. */
  lemma LateSearchIsPaidBack()
    ensures var w := Run(EMPTY, FirstAThenB());
            var w' := Make(w, SearchCommits("b", AnyPref, Some(1), 2.0));
            && AllowedRun(EMPTY, FirstAThenB()) && !Harms(w, SearchCommits("b", AnyPref, Some(1), 2.0))
            && w' == w.(db := w'.db) && w'.db.users == w.db.users && w'.db.rooms == w.db.rooms && w'.db.members == w.db.members
            && w'.db.ledger == w.db.ledger + [Txn("b", -3, RoomSearch)] + [Txn("b", 3, RoomConflictRefund)]
  {
    hide Run, AllowedRun, StartChat, LateSearch, WorldInv, OwnsRoom, BWaitsBesideRoom;
    RoomOfAState();
    var w := Run(EMPTY, RoomOfA());
    assert "b" !in w.db.users by { OnlyA(); }
    BQueuesUp(w);
    RunSnoc(EMPTY, RoomOfA(), UserJoins("b"));
    RunSnoc(EMPTY, RoomOfA() + [UserJoins("b")], ChatStarts("b", Some(Male), None, 1.0));
    MeetsConflict(Run(EMPTY, FirstAThenB()));
    ConflictGivesBack(Run(EMPTY, FirstAThenB()), "b", AnyPref, Some(1), 2.0);
  }

  lemma MeetsConflict(w: World)
    requires BWaitsBesideRoom(w)
    ensures OnChatSide(w, "b") && CanPay(w.db, "b", ROOM_SEARCH_COST) && !Enqueues(w, "b", Some(1))
    ensures !LateSearchBreaks(w, "b", AnyPref, Some(1))
  {
  }

  lemma OnlyA()
    ensures "b" !in Run(EMPTY, RoomOfA()).db.users
  {
    hide Run, AllowedRun, CreateFlow;
    RichA();
    RunSnoc(EMPTY, [UserJoins("a")] + [ReportRewarded("a", 20)], RoomCreated("a", AnyPref, 5, 0.0));
    var db := CreateRoom(RICH_A.db, "a", AnyPref, 5, None, 0.0).0;
    CreatedFill(db);
  }

  lemma CreatedFill(db: Db)
    requires db == CreateRoom(RICH_A.db, "a", AnyPref, 5, None, 0.0).0
    ensures "b" !in CreateFlow(RICH_A, "a", AnyPref, 5, 0.0).db.users
  {
    FillWithoutSeekers(RICH_A.(db := db, mirror := RICH_A.mirror.(room := RICH_A.mirror.room["a" := 1])), 1);
  }

  // ---------------------------------------------------------------- a chat that commits too late

  /** "a" starts a 1:1 search and, before it commits, a room search; then "b" opens a room. */
  function SearchesOnBothSides(): seq<Move> {
    [Whole(UserJoins("a"))] + [Whole(UserJoins("b"))] + [Whole(RoomSearched("a", AnyPref, None, 1.0))]
    + [ChatCommits("a", Some(Male), None, 2.0)]
  }

  ghost predicate AOnBothSides(w: World) {
    && w.db == Db(map["a" := Account(7, None), "b" := Account(10, None)], map[], map[], 1, [Txn("a", -3, RoomSearch)])
    && w.seekers.male == w.seekers.female == map[] && w.seekers.any == map["a" := 1.0]
    && w.pairs == EMPTY.pairs && w.queue == Queue(map["a" := 2.0], map[], map[])
  }

  lemma GetsOnBothSides()
    ensures AOnBothSides(LateChat(SearchRoom(TWO_USERS, "a", AnyPref, None, 1.0), "a", Some(Male), None, 2.0))
  {
    var w := SearchRoom(TWO_USERS, "a", AnyPref, None, 1.0);
    assert w.seekers.any == map["a" := 1.0];
    assert w.db.users == map["a" := Account(7, None), "b" := Account(10, None)];
    SearchFindsEarliest(w.queue, "a", Male, None);
    hide FirstMatch, Candidates;
    assert w.queue.male["a" := 2.0] == map["a" := 2.0];
    assert w.queue.desired - {"a"} == map[];
  }

  /** The trigger for the room of "b" takes "a" off the queue and pays back. */
  lemma TriggerMends(w: World)
    requires AOnBothSides(w)
    ensures var w1 := CreateFlow(Apply(w, ReportRewarded("b", 20)), "b", AnyPref, 5, 3.0);
            && !OnRoomSide(w1, "a") && OnChatSide(w1, "a") && Coins(w1.db, "a") == 10
            && MembersOf(w1.db, 1) == {"b"} && HasSpace(w1.db, 1)
  {
    var w0 := Apply(w, ReportRewarded("b", 20));
    var db := CreateRoom(w0.db, "b", AnyPref, 5, None, 3.0).0;
    var w1 := w0.(db := db, mirror := w0.mirror.(room := w0.mirror.room["b" := 1]));
    assert CreateFlow(w0, "b", AnyPref, 5, 3.0) == Fill(w1, 1) by { assert w0.pairs.Partner("b") == None && !w0.queue.Waiting("b"); }
    assert MembersOf(db, 1) == {"b"};
    RefusedAndPaid(w1);
  }

  lemma OneSeeker(s: Seekers)
    requires s.male == s.female == map[] && s.any == map["a" := 1.0]
    ensures PeekOldest(s, CompatibleBuckets(AnyPref)) == Some(("a", AnyPref))
  {
    var buckets := CompatibleBuckets(AnyPref);
    assert AnyPref in buckets by { BucketsAgree(AnyPref, AnyPref); }
    assert "a" in s.Bucket(AnyPref);
  }

  lemma RefusedAndPaid(w: World)
    requires w.seekers.male == w.seekers.female == map[] && w.seekers.any == map["a" := 1.0]
    requires IsOpen(w.db, 1) && w.db.rooms[1].pref == AnyPref && w.db.rooms[1].capacity == 5 && MembersOf(w.db, 1) == {"b"}
    requires "a" in w.db.users && w.db.users["a"] == Account(7, None) && w.queue.Waiting("a")
    ensures var w1 := Fill(w, 1);
            && !OnRoomSide(w1, "a") && OnChatSide(w1, "a") && Coins(w1.db, "a") == 10
            && MembersOf(w1.db, 1) == {"b"} && HasSpace(w1.db, 1)
  {
    OneSeeker(w.seekers);
    var (db, res) := JoinRoom(w.db, "a", 1, RedisConflict(w, "a"));
    var w1 := Settle(w, 1, "a", AnyPref, db, res);
    assert w1.seekers.any == map[];
    NobodyLeft(w1, 1, CompatibleBuckets(AnyPref));
  }

  lemma NobodyLeft(w: World, r: RoomId, buckets: seq<Pref>)
    requires w.seekers.male == w.seekers.female == w.seekers.any == map[]
    ensures FillLoop(w, r, buckets) == w
  {
    assert forall p :: w.seekers.Bucket(p) == map[];
    assert PeekOldest(w.seekers, buckets).None?;
  }

  /** The commit puts "a" on both sides; the next room that would take "a" mends it. */
  lemma HealedByTheTrigger()
    ensures var w := MakeAll(EMPTY, SearchesOnBothSides());
            var w1 := CreateFlow(Apply(w, ReportRewarded("b", 20)), "b", AnyPref, 5, 3.0);
            && OnChatSide(w, "a") && OnRoomSide(w, "a")
            && OnChatSide(w1, "a") && !OnRoomSide(w1, "a") && Coins(w1.db, "a") == 10 && MembersOf(w1.db, 1) == {"b"}
  {
    hide MakeAll, SearchRoom, LateChat, CreateFlow;
    MakeSnoc(EMPTY, [Whole(UserJoins("a"))], Whole(UserJoins("b")));
    MakeSnoc(EMPTY, [Whole(UserJoins("a"))] + [Whole(UserJoins("b"))], Whole(RoomSearched("a", AnyPref, None, 1.0)));
    MakeSnoc(EMPTY, [Whole(UserJoins("a"))] + [Whole(UserJoins("b"))] + [Whole(RoomSearched("a", AnyPref, None, 1.0))],
             ChatCommits("a", Some(Male), None, 2.0));
    FirstMove();
    GetsOnBothSides();
    TriggerMends(MakeAll(EMPTY, SearchesOnBothSides()));
  }

  lemma FirstMove()
    ensures Apply(MakeAll(EMPTY, [Whole(UserJoins("a"))]), UserJoins("b")) == TWO_USERS
  {
    assert [Whole(UserJoins("a"))][1..] == [];
    assert MakeAll(Apply(EMPTY, UserJoins("a")), []) == Apply(EMPTY, UserJoins("a"));
  }
}
