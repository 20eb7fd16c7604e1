/** Concrete runs in which the bot does not keep what its comments promise. The exact
    conditions are stated next to the handlers concerned. */
module Counterexamples {
  import opened Basics
  import opened SortedSets
  import opened Ledger
  import opened Database
  import opened RoomInvariant
  import opened MatchQueue
  import opened MatchOrder
  import opened World
  import opened ChatHandlers
  import opened RoomHandlers
  import opened WorldInvariant
  import opened ChatSteps
  import opened MissingGuards
  import opened BotRuns
  import opened NoMissedRooms
  import opened NoMissedRoomRuns
  import opened Effects

  lemma FillWithoutSeekers(w: World, r: RoomId)
    requires w.seekers.male == w.seekers.female == w.seekers.any == map[]
    ensures Fill(w, r) == w
  {
    if IsOpen(w.db, r) {
      var buckets := CompatibleBuckets(w.db.rooms[r].pref);
      assert forall p :: w.seekers.Bucket(p) == map[];
      assert PeekOldest(w.seekers, buckets).None?;
    }
  }

  lemma RunSnoc(w: World, es: seq<Event>, e: Event)
    ensures Run(w, es + [e]) == Apply(Run(w, es), e)
    ensures AllowedRun(w, es + [e]) <==> AllowedRun(w, es) && Allowed(Run(w, es), e)
    decreases |es|
  {
    hide Apply, Allowed;
    if es == [] {
      assert (es + [e])[1..] == [];
    } else {
      assert (es + [e])[1..] == es[1..] + [e];
      RunSnoc(Apply(w, es[0]), es[1..], e);
    }
  }

  // ---------------------------------------------------------------- a room of one's own

  /** "a" opens a room for five and has ten coins left. */
  function RoomOfA(): seq<Event> {
    [UserJoins("a")] + [ReportRewarded("a", 20)] + [RoomCreated("a", AnyPref, 5, 0.0)]
  }

  const RICH_A := EMPTY.(db := Db(map["a" := Account(30, None)], map[], map[], 1, [Txn("a", 20, ReportReward)]))

  lemma RichA()
    ensures var es := [UserJoins("a")] + [ReportRewarded("a", 20)];
            AllowedRun(EMPTY, es) && Run(EMPTY, es) == RICH_A
  {
    RunSnoc(EMPTY, [UserJoins("a")], ReportRewarded("a", 20));
    assert [UserJoins("a")][1..] == [];
  }

  ghost predicate OwnsRoom(w: World) {
    && "a" in w.db.users && w.db.users["a"] == Account(10, Some(1))
    && w.db.rooms == map[1 := Room("a", AnyPref, 5, Open, 0.0)] && MembersOf(w.db, 1) == {"a"}
    && w.seekers == EMPTY.seekers && w.queue == EMPTY.queue && w.pairs == EMPTY.pairs
    && w.db.ledger == [Txn("a", 20, ReportReward)] + [Txn("a", -20, RoomCreate)]
  }

  lemma CreatedByA()
    ensures OwnsRoom(CreateFlow(RICH_A, "a", AnyPref, 5, 0.0))
  {
    var db := CreateRoom(RICH_A.db, "a", AnyPref, 5, None, 0.0).0;
    FillWithoutSeekers(RICH_A.(db := db, mirror := RICH_A.mirror.(room := RICH_A.mirror.room["a" := 1])), 1);
  }

  lemma RoomOfAState()
    ensures AllowedRun(EMPTY, RoomOfA()) && OwnsRoom(Run(EMPTY, RoomOfA())) && WorldInv(Run(EMPTY, RoomOfA()))
  {
    hide OwnsRoom, Run, AllowedRun, CreateFlow, WorldInv;
    RichA();
    RunSnoc(EMPTY, [UserJoins("a")] + [ReportRewarded("a", 20)], RoomCreated("a", AnyPref, 5, 0.0));
    CreatedByA();
    EveryReachableStateIsGood(RoomOfA());
  }

  /** /next from within a room: "a" ends up in the room and in the 1:1 queue. */
  lemma NextFromARoom()
    ensures AllowedRun(EMPTY, RoomOfA()) && !Exclusive(Apply(Run(EMPTY, RoomOfA()), ChatNexts("a", Some(Male), Some(None), 1.0)))
  {
    hide WorldInv, Run, AllowedRun, NextChat, Exclusive;
    RoomOfAState();
    var w := Run(EMPTY, RoomOfA());
    NextChatExactly(w, "a", Some(Male), Some(None), 1.0);
  }

  /** A room search from within a room with a free place: "a" pays and waits beside it. */
  lemma SearchFromARoom()
    ensures var w := Run(EMPTY, RoomOfA());
            && AllowedRun(EMPTY, RoomOfA()) && NoMissedRoom(w) && IsSearchResult(w.db, AnyPref, Some(1))
            && !NoMissedRoom(Apply(w, RoomSearched("a", AnyPref, Some(1), 1.0)))
  {
    hide WorldInv, Run, AllowedRun;
    RoomOfAState();
    var w := Run(EMPTY, RoomOfA());
    NobodySeeks(w);
    assert Suitable(w.db, AnyPref, 1);
    hide NoMissedRoom, SearchRoom;
    SearchRoomExactly(w, "a", AnyPref, Some(1), 1.0);
  }

  lemma NobodySeeks(w: World)
    requires w.seekers == EMPTY.seekers
    ensures NoMissedRoom(w)
  {
  }

  // ---------------------------------------------------------------- a full room

  /** "a" opens a room for three, "b" and "c" join it, and "d" waits for a place. */
  function FullRoom(): seq<Event> {
    Two() + [RoomSearched("d", AnyPref, None, 3.0)]
  }

  function Two(): seq<Event> {
    Founded() + [RoomSearched("b", AnyPref, Some(1), 1.0)] + [RoomSearched("c", AnyPref, Some(1), 2.0)]
  }

  function Founded(): seq<Event> {
    Four() + [ReportRewarded("a", 20)] + [RoomCreated("a", AnyPref, 3, 0.0)]
  }

  function Four(): seq<Event> {
    [UserJoins("a")] + [UserJoins("b")] + [UserJoins("c")] + [UserJoins("d")]
  }

  lemma FourUsers()
    ensures AllowedRun(EMPTY, Four())
    ensures Run(EMPTY, Four()) == EMPTY.(db := EMPTY.db.(users :=
              map["a" := Account(10, None), "b" := Account(10, None), "c" := Account(10, None), "d" := Account(10, None)]))
  {
    RunSnoc(EMPTY, [UserJoins("a")], UserJoins("b"));
    RunSnoc(EMPTY, [UserJoins("a")] + [UserJoins("b")], UserJoins("c"));
    RunSnoc(EMPTY, [UserJoins("a")] + [UserJoins("b")] + [UserJoins("c")], UserJoins("d"));
    assert [UserJoins("a")][1..] == [];
  }

  predicate Outside(w: World, u: UserId) {
    u in w.db.users && w.db.users[u] == Account(10, None)
  }

  /** The room of three, who is in it, and who waits for any room. */
  ghost predicate Three(w: World, members: set<UserId>, waiting: ZSet) {
    && w.db.rooms == map[1 := Room("a", AnyPref, 3, Open, 0.0)] && MembersOf(w.db, 1) == members
    && w.seekers.male == w.seekers.female == map[] && w.seekers.any == waiting
    && w.queue == EMPTY.queue && w.pairs == EMPTY.pairs
  }

  lemma Foundation(w: World)
    requires w == EMPTY.(db := EMPTY.db.(users :=
               map["a" := Account(10, None), "b" := Account(10, None), "c" := Account(10, None), "d" := Account(10, None)]))
    ensures var w' := CreateFlow(Apply(w, ReportRewarded("a", 20)), "a", AnyPref, 3, 0.0);
            Three(w', {"a"}, map[]) && Outside(w', "b") && Outside(w', "c") && Outside(w', "d")
  {
    var w1 := Apply(w, ReportRewarded("a", 20));
    var db := CreateRoom(w1.db, "a", AnyPref, 3, None, 0.0).0;
    FillWithoutSeekers(w1.(db := db, mirror := w1.mirror.(room := w1.mirror.room["a" := 1])), 1);
  }

  lemma OneMoreJoins(w: World, u: UserId, members: set<UserId>, now: real)
    requires Three(w, members, map[]) && Outside(w, u) && |members| < 3
    ensures var w' := SearchRoom(w, u, AnyPref, Some(1), now);
            Three(w', members + {u}, map[]) && forall v | v != u && Outside(w, v) :: Outside(w', v)
  {
  }

  lemma OneWaits(w: World, u: UserId, members: set<UserId>, now: real)
    requires Three(w, members, map[]) && Outside(w, u)
    ensures Three(SearchRoom(w, u, AnyPref, None, now), members, map[u := now])
  {
    assert w.seekers.any[u := now] == map[u := now];
  }

  lemma FoundedState()
    ensures var w := Run(EMPTY, Founded());
            AllowedRun(EMPTY, Founded()) && Three(w, {"a"}, map[]) && Outside(w, "b") && Outside(w, "c") && Outside(w, "d")
  {
    hide Run, AllowedRun, CreateFlow, Three, Outside;
    FourUsers();
    RunSnoc(EMPTY, Four(), ReportRewarded("a", 20));
    RunSnoc(EMPTY, Four() + [ReportRewarded("a", 20)], RoomCreated("a", AnyPref, 3, 0.0));
    Foundation(Run(EMPTY, Four()));
  }

  lemma TwoState()
    ensures var w := Run(EMPTY, Two());
            AllowedRun(EMPTY, Two()) && Three(w, {"a", "b", "c"}, map[]) && Outside(w, "d")
  {
    hide Run, AllowedRun, SearchRoom, Three, Outside, Founded;
    FoundedState();
    var w1 := Run(EMPTY, Founded());
    RunSnoc(EMPTY, Founded(), RoomSearched("b", AnyPref, Some(1), 1.0));
    OneMoreJoins(w1, "b", {"a"}, 1.0);
    assert {"a"} + {"b"} == {"a", "b"} && {"a", "b"} + {"c"} == {"a", "b", "c"};
    RunSnoc(EMPTY, Founded() + [RoomSearched("b", AnyPref, Some(1), 1.0)], RoomSearched("c", AnyPref, Some(1), 2.0));
    OneMoreJoins(Apply(w1, RoomSearched("b", AnyPref, Some(1), 1.0)), "c", {"a", "b"}, 2.0);
  }

  lemma FullRoomState()
    ensures AllowedRun(EMPTY, FullRoom()) && WorldInv(Run(EMPTY, FullRoom()))
    ensures Three(Run(EMPTY, FullRoom()), {"a", "b", "c"}, map["d" := 3.0])
  {
    hide Run, AllowedRun, SearchRoom, WorldInv, Three, Outside, Two;
    TwoState();
    RunSnoc(EMPTY, Two(), RoomSearched("d", AnyPref, None, 3.0));
    OneWaits(Run(EMPTY, Two()), "d", {"a", "b", "c"}, 3.0);
    EveryReachableStateIsGood(FullRoom());
  }

  /** A ban frees a place that the waiting "d" is not offered. */
  lemma BanFreesAPlace()
    ensures var w := Run(EMPTY, FullRoom());
            AllowedRun(EMPTY, FullRoom()) && NoMissedRoom(w) && !NoMissedRoom(EnforceBan(w, "c"))
  {
    hide Run, AllowedRun, WorldInv, NoMissedRoom, EnforceBan, Three, HoldsWantedPlace;
    FullRoomState();
    BannedC(Run(EMPTY, FullRoom()));
    BanExactly(Run(EMPTY, FullRoom()), "c");
  }

  lemma BannedC(w: World)
    requires WorldInv(w) && Three(w, {"a", "b", "c"}, map["d" := 3.0])
    ensures NoMissedRoom(w) && HoldsWantedPlace(w, "c")
  {
    hide Count, Sum;
    MemberIsActive(w, 1, "c");
    assert |{"a", "b", "c"}| == 3;
    assert "d" in w.seekers.Bucket(AnyPref);
  }

  lemma MemberIsActive(w: World, r: RoomId, u: UserId)
    requires WorldInv(w) && IsMember(w.db, r, u)
    ensures ActiveRoom(w.db, u) == Some(r)
  {
  }

  /** The same room, closed before "c" was banned. */
  function ClosedRoom(): seq<Event> {
    FullRoom() + [RoomSwitched("a", false)] + [UserBanned("c")]
  }

  lemma ClosedRoomState()
    ensures AllowedRun(EMPTY, ClosedRoom()) && WorldInv(Run(EMPTY, ClosedRoom()))
    ensures Run(EMPTY, ClosedRoom()) == EnforceBan(SetOpenFlow(Run(EMPTY, FullRoom()), "a", false), "c")
  {
    hide Run, AllowedRun, WorldInv, SetOpenFlow, EnforceBan, Three;
    FullRoomState();
    RunSnoc(EMPTY, FullRoom(), RoomSwitched("a", false));
    RunSnoc(EMPTY, FullRoom() + [RoomSwitched("a", false)], UserBanned("c"));
    EveryReachableStateIsGood(ClosedRoom());
  }

  /** Reopened, it has a free place that the waiting "d" is not offered. */
  lemma ReopenBesideASeeker()
    ensures var w := Run(EMPTY, ClosedRoom());
            AllowedRun(EMPTY, ClosedRoom()) && NoMissedRoom(w) && !NoMissedRoom(SetOpenFlow(w, "a", true))
  {
    hide Run, AllowedRun, WorldInv, NoMissedRoom, SetOpenFlow, EnforceBan, Three, OwnsWantedPlace, ClosedRoom, FullRoom;
    FullRoomState();
    ClosedRoomState();
    ClosedAndBanned(Run(EMPTY, FullRoom()));
    ReopenExactly(Run(EMPTY, ClosedRoom()), "a");
  }

  lemma ClosedAndBanned(w: World)
    requires WorldInv(w) && Three(w, {"a", "b", "c"}, map["d" := 3.0])
    ensures var w' := EnforceBan(SetOpenFlow(w, "a", false), "c");
            NoMissedRoom(w') && OwnsWantedPlace(w', "a")
  {
    MemberIsActive(w, 1, "a");
    MemberIsActive(w, 1, "c");
    assert {"a", "b", "c"} - {"c"} == {"a", "b"};
    var w' := EnforceBan(SetOpenFlow(w, "a", false), "c");
    assert "d" in w'.seekers.Bucket(AnyPref);
  }

  // ---------------------------------------------------------------- two in the queue

  /** "b" waits for anybody, then "a", who may only be matched with women, waits too. */
  function TwoWait(): seq<Event> {
    [UserJoins("a")] + [UserJoins("b")] + [ChatStarts("b", Some(Male), None, 0.0)] + [ChatStarts("a", Some(Male), Some(Female), 1.0)]
  }

  const TWO_USERS := EMPTY.(db := Db(map["a" := Account(10, None), "b" := Account(10, None)], map[], map[], 1, []))
  const B_WAITS := TWO_USERS.(queue := Queue(map["b" := 0.0], map[], map[]))

  lemma TwoUsers()
    ensures var es := [UserJoins("a")] + [UserJoins("b")];
            AllowedRun(EMPTY, es) && Run(EMPTY, es) == TWO_USERS
  {
    RunSnoc(EMPTY, [UserJoins("a")], UserJoins("b"));
    assert [UserJoins("a")][1..] == [];
  }

  lemma BWaits()
    ensures StartChat(TWO_USERS, "b", Some(Male), None, 0.0) == B_WAITS
  {
    SearchFindsEarliest(TWO_USERS.queue, "b", Male, None);
    hide FirstMatch, Candidates;
    assert map["b" := 0.0] == TWO_USERS.queue.male["b" := 0.0];
    assert TWO_USERS.queue.desired - {"b"} == map[];
  }

  lemma AWaits()
    ensures var w := StartChat(B_WAITS, "a", Some(Male), Some(Female), 1.0);
            w.queue.Waiting("a") && "b" in w.queue.male && "b" !in w.queue.desired
  {
    SearchFindsEarliest(B_WAITS.queue, "a", Male, Some(Female));
    hide FirstMatch, Candidates;
  }

  /** A waiting caller who is matched stays in the queue. */
  lemma MatchedWhileWaiting(w: World)
    requires WorldInv(w) && w.queue.Waiting("a") && SomebodySuits(w.queue, "a", Male, None)
    ensures var w' := RunSearch(w, "a", Some(Male), None, None, 2.0);
            w'.queue.Waiting("a") && exists c :: Paired(w', "a", c)
  {
    hide DbInv, NoMissedMatch, SearchFees, SeekersInv, MirrorInv, RequestsInv, FirstMatch, Candidates;
    WaitingIsUnpaired(w.queue, w.pairs, "a");
    assert !OnRoomSide(w, "a") by { assert OnChatSide(w, "a"); }
    FoundIsWaiting(w.queue, "a", Male, None);
    var found := FirstMatch(w.queue, "a", Male, Candidates(w.queue, None));
    assert found.Some?;
    assert Paired(RunSearch(w, "a", Some(Male), None, None, 2.0), "a", found.value);
  }

  /** A filtered search from within the queue: "a" ends up paired and still waiting. */
  lemma SearchFromTheQueue()
    ensures var w' := Apply(Run(EMPTY, TwoWait()), FilteredSearch("a", Some(Male), None, None, 2.0));
            AllowedRun(EMPTY, TwoWait()) && w'.queue.Waiting("a") && exists c :: Paired(w', "a", c)
  {
    hide WorldInv, Run, AllowedRun, StartChat, RunSearch, SomebodySuits, Queue.Waiting;
    TwoUsers();
    BWaits();
    AWaits();
    var es := [UserJoins("a")] + [UserJoins("b")];
    RunSnoc(EMPTY, es, ChatStarts("b", Some(Male), None, 0.0));
    RunSnoc(EMPTY, es + [ChatStarts("b", Some(Male), None, 0.0)], ChatStarts("a", Some(Male), Some(Female), 1.0));
    EveryReachableStateIsGood(TwoWait());
    var w := Run(EMPTY, TwoWait());
    BSuits(w.queue);
    MatchedWhileWaiting(w);
  }

  lemma BSuits(q: Queue)
    requires "b" in q.male && "b" !in q.desired
    ensures SomebodySuits(q, "a", Male, None)
  {
    CandidateMembership(q, None, "b");
    assert Suits(q, "a", Male, "b");
  }

  // ---------------------------------------------------------------- a gender changed while waiting

  /** "s" waits as a woman for women, then "c" as a man for women. */
  function BothWantWomen(): seq<Event> {
    [UserJoins("s")] + [UserJoins("c")] + [ChatStarts("s", Some(Female), Some(Female), 0.0)]
    + [ChatStarts("c", Some(Male), Some(Female), 1.0)]
  }

  const S_AND_C := EMPTY.(db := Db(map["s" := Account(10, None), "c" := Account(10, None)], map[], map[], 1, []))

  lemma SAndC()
    ensures var es := [UserJoins("s")] + [UserJoins("c")];
            AllowedRun(EMPTY, es) && Run(EMPTY, es) == S_AND_C
  {
    RunSnoc(EMPTY, [UserJoins("s")], UserJoins("c"));
    assert [UserJoins("s")][1..] == [];
  }

  /** Nobody is paired, in a room or waiting for one. */
  ghost predicate RoomsAsleep(w: World) {
    w.pairs.partner == map[] && w.seekers == EMPTY.seekers && forall u :: ActiveRoom(w.db, u) == None
  }

  /** A paid search that finds nobody. */
  lemma PaysAndWaits(w: World, u: UserId, own: Gender, want: Gender, now: real)
    requires RoomsAsleep(w) && !w.queue.Waiting(u) && CanPay(w.db, u, CHAT_COST)
    requires forall c | c in w.queue.Bucket(want) :: !Suits(w.queue, u, own, c)
    ensures var w' := StartChat(w, u, Some(own), Some(want), now);
            && RoomsAsleep(w') && w'.queue == Enqueue(w.queue, u, own, Some(want), now)
            && forall v | v != u && CanPay(w.db, v, CHAT_COST) :: CanPay(w'.db, v, CHAT_COST)
  {
    SearchFindsEarliest(w.queue, u, own, Some(want));
    hide FirstMatch, Candidates, Suits;
    var db := Deduct(w.db, u, CHAT_COST, GenderSearch).value;
    assert forall v :: ActiveRoom(db, v) == ActiveRoom(w.db, v);
    assert StartChat(w, u, Some(own), Some(want), now).db == db;
  }

  lemma BothWantWomenState()
    ensures var w := Run(EMPTY, BothWantWomen());
            AllowedRun(EMPTY, BothWantWomen()) && RoomsAsleep(w)
            && w.queue == Queue(map["c" := 1.0], map["s" := 0.0], map["s" := Female, "c" := Female])
  {
    hide Run, AllowedRun, StartChat, RoomsAsleep;
    SAndC();
    assert RoomsAsleep(S_AND_C) by { NobodyIsUp(); }
    var es := [UserJoins("s")] + [UserJoins("c")];
    RunSnoc(EMPTY, es, ChatStarts("s", Some(Female), Some(Female), 0.0));
    PaysAndWaits(S_AND_C, "s", Female, Female, 0.0);
    var w1 := StartChat(S_AND_C, "s", Some(Female), Some(Female), 0.0);
    assert w1.queue == Queue(map[], map["s" := 0.0], map["s" := Female]);
    RunSnoc(EMPTY, es + [ChatStarts("s", Some(Female), Some(Female), 0.0)], ChatStarts("c", Some(Male), Some(Female), 1.0));
    PaysAndWaits(w1, "c", Male, Female, 1.0);
  }

  lemma NobodyIsUp()
    ensures RoomsAsleep(S_AND_C)
  {
  }

  /** When "s", a man by now, searches again, nobody suits; but his old entry and "c" now
      accept each other. */
  lemma StaleGender()
    ensures var w := Run(EMPTY, BothWantWomen());
            && AllowedRun(EMPTY, BothWantWomen()) && NoMissedMatch(w.queue)
            && !NoMissedMatch(Apply(w, FilteredSearch("s", Some(Male), None, None, 2.0)).queue)
  {
    hide Run, AllowedRun, FirstMatch, Candidates, NoMissedMatch;
    BothWantWomenState();
    var w := Run(EMPTY, BothWantWomen());
    MissesC(w.queue);
  }

  lemma MissesC(q: Queue)
    requires q == Queue(map["c" := 1.0], map["s" := 0.0], map["s" := Female, "c" := Female])
    ensures NoMissedMatch(q) && !NoMissedMatch(MatchOrEnqueue(q, "s", Male, None, 2.0).0)
  {
    TwoEntries(q);
    SearchFindsEarliest(q, "s", Male, None);
    hide FirstMatch, Candidates, NoMissedMatch, EarliestIn;
    assert FirstMatch(q, "s", Male, Candidates(q, None)).None?;
    StaleEntryBreaksNoMissedMatch(q, "s", Male, None, 2.0);
    assert WishesFormerGender(q, "s", Male, None, Male, "c");
  }

  lemma TwoEntries(q: Queue)
    requires q == Queue(map["c" := 1.0], map["s" := 0.0], map["s" := Female, "c" := Female])
    ensures NoMissedMatch(q)
    ensures forall g, c | c in q.Bucket(g) :: !Suits(q, "s", Male, c)
  {
    assert forall g, u | u in q.Bucket(g) :: (g == Male && u == "c") || (g == Female && u == "s");
  }
}
