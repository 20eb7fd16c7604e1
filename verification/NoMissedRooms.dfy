/** No open room with a free place coexists with a seeker it would take: which events keep
    this, which break it, and that the sweep restores it. */
module NoMissedRooms {
  import opened Basics
  import opened SortedSets
  import opened Ledger
  import opened Database
  import opened RoomInvariant
  import opened RoomTransactions
  import opened MatchQueue
  import opened World
  import opened ChatHandlers
  import opened RoomHandlers
  import opened RequestHandlers
  import opened WorldInvariant
  import opened RoomSteps
  import opened RoomFlows
  import opened RequestSteps
  import opened FillOrder
  import opened BotRuns

  ghost predicate NoMissedRoom(w: World) {
    forall r :: NobodyMissed(w, r)
  }

  /** The fill trigger, end to end. */
  lemma FillServesTheQueue(w: World, r: RoomId)
    requires WorldInv(w) && IsOpen(w.db, r)
    ensures var w' := Fill(w, r);
            var admitted := MembersOf(w'.db, r) - MembersOf(w.db, r);
            && NobodyMissed(w', r)
            && Shrinks(w.seekers, w'.seekers)
            && Fifo(w.seekers, w'.seekers, CompatibleBuckets(w.db.rooms[r].pref))
            && Admits(w, w', r)
            && |admitted| <= w.db.rooms[r].capacity - |MembersOf(w.db, r)|
  {
    var buckets := CompatibleBuckets(w.db.rooms[r].pref);
    var w' := Fill(w, r);
    FillLoopSettles(w, r, buckets);
    FillLoopIsFifo(w, r, buckets);
    FillLoopAdmits(w, r, buckets);
    FillLoopKeeps(w, r, buckets);
    hide FillLoop;
    assert RoomOk(w'.db, r);
    assert MembersOf(w'.db, r) == MembersOf(w.db, r) + (MembersOf(w'.db, r) - MembersOf(w.db, r));
  }

  // ---------------------------------------------------------------- keeping it

  /** Room `r` offers no more than before, to no more seekers than before. */
  ghost predicate NoNewChance(w: World, w': World, r: RoomId) {
    && Shrinks(w.seekers, w'.seekers)
    && (HasSpace(w'.db, r) ==> HasSpace(w.db, r) && w'.db.rooms[r].pref == w.db.rooms[r].pref)
  }

  lemma NoNewChanceKeeps(w: World, w': World, r: RoomId)
    requires NoNewChance(w, w', r) && NobodyMissed(w, r)
    ensures NobodyMissed(w', r)
  {
    forall p, u ensures !Missed(w', r, p, u) {
      assert !Missed(w, r, p, u);
      assert Entry(w'.seekers, p, u).Some? ==> Entry(w.seekers, p, u).Some?;
    }
  }

  lemma FillAddsNoChance(w: World, r: RoomId, s: RoomId)
    requires WorldInv(w)
    ensures NoNewChance(w, Fill(w, r), s)
  {
    Unchanged(w.seekers, []);
    if IsOpen(w.db, r) {
      FillServesTheQueue(w, r);
      hide Fill;
      MoreMembersLessSpace(w.db, Fill(w, r).db, s);
    }
  }

  lemma MoreMembersLessSpace(db: Db, db': Db, s: RoomId)
    requires db'.rooms == db.rooms && MembersOf(db, s) <= MembersOf(db', s)
    ensures HasSpace(db', s) ==> HasSpace(db, s)
  {
    assert MembersOf(db', s) == MembersOf(db, s) + (MembersOf(db', s) - MembersOf(db, s));
  }

  lemma FillSettles(w: World, r: RoomId)
    requires WorldInv(w)
    ensures NobodyMissed(Fill(w, r), r)
  {
    if IsOpen(w.db, r) { FillServesTheQueue(w, r); }
  }

  /** A step that may only have made room in `r`, followed by the trigger for `r`. */
  lemma TriggerRestores(w: World, w1: World, r: RoomId)
    requires WorldInv(w1) && NoMissedRoom(w) && (forall s | s != r :: NoNewChance(w, w1, s))
    ensures NoMissedRoom(Fill(w1, r))
  {
    hide WorldInv, Fill;
    FillSettles(w1, r);
    forall s ensures NobodyMissed(Fill(w1, r), s) {
      if s != r {
        NoNewChanceKeeps(w, w1, s);
        FillAddsNoChance(w1, r, s);
        NoNewChanceKeeps(w1, Fill(w1, r), s);
      }
    }
  }

  /** Rooms and places in the queue of seekers are as before. */
  ghost predicate RoomsUntouched(w: World, w': World) {
    w'.db.rooms == w.db.rooms && w'.db.members == w.db.members && w'.seekers == w.seekers
  }

  lemma UntouchedKeeps(w: World, w': World)
    requires RoomsUntouched(w, w') && NoMissedRoom(w)
    ensures NoMissedRoom(w')
  {
    forall r ensures NobodyMissed(w', r) {
      assert NobodyMissed(w, r);
      forall p, u ensures !Missed(w', r, p, u) { assert !Missed(w, r, p, u); }
    }
  }

  lemma PayAndMatchUntouched(w: World, u: UserId, own: Option<Gender>, want: Option<Gender>, now: real)
    ensures RoomsUntouched(w, PayAndMatch(w, u, own, want, now))
    ensures RoomsUntouched(w, TryMatch(w, u, own, want, now))
  {
  }

  lemma RunSearchUntouched(w: World, u: UserId, own: Option<Gender>, filter: Option<Gender>, choice: Option<UserId>, now: real)
    ensures RoomsUntouched(w, RunSearch(w, u, own, filter, choice, now))
  {
    hide PayAndMatch, TryMatch;
    var paid := if filter.Some? then PaySearch(w, u) else Some(w);
    if paid.Some? {
      PayAndMatchUntouched(paid.value, u, own, filter, now);
      if choice.Some? {
        PayAndMatchUntouched(paid.value.(queue := Dequeue(paid.value.queue, choice.value)), u, own, filter, now);
      }
    }
  }

  lemma NextChatUntouched(w: World, u: UserId, own: Option<Gender>, saved: Option<Option<Gender>>, now: real)
    ensures RoomsUntouched(w, NextChat(w, u, own, saved, now))
  {
    hide PayAndMatch, TryMatch;
    var w1 := match w.pairs.Partner(u) case None => w case Some(v) => EndChat(w, u, v);
    if saved.Some? { PayAndMatchUntouched(w1.(queue := Dequeue(w1.queue, u)), u, own, saved.value, now); }
  }

  lemma EndingsUntouched(w: World, u: UserId)
    ensures RoomsUntouched(w, StopChat(w, u)) && RoomsUntouched(w, QueueTimeout(w, u)) && RoomsUntouched(w, Message(w, u))
  {
  }

  lemma StartChatUntouched(w: World, u: UserId, own: Option<Gender>, want: Option<Gender>, now: real)
    ensures RoomsUntouched(w, StartChat(w, u, own, want, now))
  {
    hide PayAndMatch;
    PayAndMatchUntouched(w, u, own, want, now);
  }

  lemma ChatEventsUntouched(w: World, e: Event)
    requires ChatEvent(e)
    ensures RoomsUntouched(w, Apply(w, e))
  {
    hide StartChat, RunSearch, NextChat, StopChat, QueueTimeout, Message;
    match e
    case ChatStarts(u, own, want, now) => StartChatUntouched(w, u, own, want, now);
    case FilteredSearch(u, own, want, choice, now) => RunSearchUntouched(w, u, own, want, choice, now);
    case ChatStops(u) => EndingsUntouched(w, u);
    case ChatNexts(u, own, saved, now) => NextChatUntouched(w, u, own, saved, now);
    case QueueTimesOut(u) => EndingsUntouched(w, u);
    case QueuePurged(_) =>
    case MessageRelayed(u) => EndingsUntouched(w, u);
  }

  lemma {:induction false} RefundEachUntouched(db: Db, us: seq<UserId>)
    ensures RefundEach(db, us).rooms == db.rooms && RefundEach(db, us).members == db.members
    decreases |us|
  {
    if us != [] { RefundEachUntouched(Refund(db, us[0], CHAT_COST, RequestTimeoutRefund), us[1..]); }
  }

  /** Events that touch neither rooms nor the places of seekers. */
  predicate Aside(e: Event) {
    !(e.RoomSearched? || e.RoomSearchCancelled? || e.RoomSearchTimesOut? || e.BotRestarts? || e.QueueSwept? || e.RoomCreated?
      || e.RoomLeft? || e.MemberKicked? || e.RoomDeleted? || e.RoomSwitched? || e.UserBanned?)
  }

  lemma AsideUntouched(w: World, e: Event)
    requires Aside(e)
    ensures RoomsUntouched(w, Apply(w, e))
  {
    hide StartChat, RunSearch, StopChat, NextChat, QueueTimeout, PurgeQueue, Message;
    match e
    case RequestsExpire(cutoff) =>
      RefundEachUntouched(w.db, PopEach(w.requests, ExpiredIds(w.requests, cutoff)).1);
    case RequestSent(_, _, _, _, _) =>
    case RequestAccepted(_, _) =>
    case RequestRejected(_) =>
    case UserJoins(_) =>
    case ReportRewarded(_, _) =>
    case ReferralCompleted(_, _) =>
    case DirectMessageSent(_, _) =>
    case RoomMessage(_) =>
    case MirrorSynced =>
    case RoomUiExited(_) =>
    case RoomShown(_) =>
    case _ => ChatEventsUntouched(w, e);
  }

  // ---------------------------------------------------------------- steps that only take chances away

  lemma NoChanceKeeps(w: World, w': World)
    requires NoMissedRoom(w) && forall s :: NoNewChance(w, w', s)
    ensures NoMissedRoom(w')
  {
    hide NoNewChance;
    forall s ensures NobodyMissed(w', s) { NoNewChanceKeeps(w, w', s); }
  }

  lemma NoNewChanceTransitive(a: World, b: World, c: World, r: RoomId)
    requires NoNewChance(a, b, r) && NoNewChance(b, c, r)
    ensures NoNewChance(a, c, r)
  {
    hide Entry, HasSpace;
  }

  /** Seekers left, and nothing else happened to rooms. */
  lemma FewerSeekers(w: World, w': World, s: RoomId)
    requires w'.db.rooms == w.db.rooms && w'.db.members == w.db.members && Shrinks(w.seekers, w'.seekers)
    ensures NoNewChance(w, w', s)
  {
  }

  lemma LeavingShrinks(s: Seekers, u: UserId, p: Pref, jobs: map<UserId, multiset<Pref>>)
    ensures Shrinks(s, DequeueSeeker(s, u, p).(jobs := jobs))
    ensures Shrinks(s, s.(jobs := jobs))
  {
  }

  lemma PurgeShrinks(s: Seekers, cutoff: real)
    ensures Shrinks(s, PurgeSeekers(s, cutoff))
  {
  }

  lemma {:induction false} FillAllAddsNoChance(w: World, rooms: seq<RoomId>, s: RoomId)
    requires WorldInv(w)
    ensures NoNewChance(w, FillAll(w, rooms), s)
    decreases |rooms|
  {
    hide WorldInv, Fill, NoNewChance;
    if rooms == [] {
      assert NoNewChance(w, w, s) by { FewerSeekersReflexive(w, s); }
    } else {
      FillKeeps(w, rooms[0]);
      FillAddsNoChance(w, rooms[0], s);
      FillAllAddsNoChance(Fill(w, rooms[0]), rooms[1..], s);
      NoNewChanceTransitive(w, Fill(w, rooms[0]), FillAll(w, rooms), s);
    }
  }

  lemma FewerSeekersReflexive(w: World, s: RoomId)
    ensures NoNewChance(w, w, s)
  {
  }

  lemma PurgedKeeps(w: World, cutoff: real)
    requires WorldInv(w)
    ensures WorldInv(w.(seekers := PurgeSeekers(w.seekers, cutoff)))
    ensures forall s :: NoNewChance(w, w.(seekers := PurgeSeekers(w.seekers, cutoff)), s)
  {
    hide WorldInv, NoNewChance;
    var p := PurgeSeekers(w.seekers, cutoff);
    forall q, u ensures u in p.Bucket(q) ==> u in w.seekers.Bucket(q) {}
    FewerSeekersKeep(w, p);
    PurgeShrinks(w.seekers, cutoff);
    forall s ensures NoNewChance(w, w.(seekers := p), s) { FewerSeekers(w, w.(seekers := p), s); }
  }

  lemma SweepQuiet(w: World, cutoff: real, rooms: seq<RoomId>)
    requires WorldInv(w) && NoMissedRoom(w)
    ensures NoMissedRoom(Sweep(w, cutoff, rooms))
  {
    hide WorldInv, NoNewChance, NoMissedRoom;
    PurgedKeeps(w, cutoff);
    var w1 := w.(seekers := PurgeSeekers(w.seekers, cutoff));
    NoChanceKeeps(w, w1);
    forall s ensures NoNewChance(w1, FillAll(w1, rooms), s) { FillAllAddsNoChance(w1, rooms, s); }
    NoChanceKeeps(w1, FillAll(w1, rooms));
  }

  lemma QueueEventQuiet(w: World, e: Event)
    requires WorldInv(w) && NoMissedRoom(w)
    requires e.RoomSearchCancelled? || e.RoomSearchTimesOut? || e.BotRestarts?
    ensures NoMissedRoom(Apply(w, e))
  {
    var w' := Apply(w, e);
    hide WorldInv, NoNewChance, NoMissedRoom, PurgeSeekers, DropUpTo, Shrinks, DequeueSeeker, Seekers.Filter;
    assert Shrinks(w.seekers, w'.seekers) by {
      match e
      case RoomSearchCancelled(u) =>
        if w.seekers.Filter(u).Some? {
          LeavingShrinks(w.seekers, u, w.seekers.Filter(u).value, CancelJobs(DequeueSeeker(w.seekers, u, w.seekers.Filter(u).value), u).jobs);
        }
        Unchanged(w.seekers, []);
      case RoomSearchTimesOut(u, p) =>
        var jobs := w.seekers.jobs[u := w.seekers.Jobs(u) - multiset{p}];
        LeavingShrinks(w.seekers, u, p, jobs);
        assert DequeueSeeker(w.seekers.(jobs := jobs), u, p) == DequeueSeeker(w.seekers, u, p).(jobs := jobs) by {
          DequeueKeepsJobs(w.seekers, u, p, jobs);
        }
      case BotRestarts => LeavingShrinks(w.seekers, "", MalePref, map[]);
    }
    forall s ensures NoNewChance(w, w', s) { FewerSeekers(w, w', s); }
    NoChanceKeeps(w, w');
  }

  lemma DequeueKeepsJobs(s: Seekers, u: UserId, p: Pref, jobs: map<UserId, multiset<Pref>>)
    ensures DequeueSeeker(s.(jobs := jobs), u, p) == DequeueSeeker(s, u, p).(jobs := jobs)
  {
  }

  // ---------------------------------------------------------------- steps that change one room

  /** A step on room `r` alone is harmless when it leaves `r` without a free place. */
  lemma OneRoomNoChance(w: World, w': World, r: RoomId, s: RoomId)
    requires OnlyRoom(w.db, w'.db, r) && w'.seekers == w.seekers
    requires s != r || !HasSpace(w'.db, r)
    ensures NoNewChance(w, w', s)
  {
    Unchanged(w.seekers, []);
  }

  lemma ShutRoomQuiet(w: World, w': World, r: RoomId)
    requires NoMissedRoom(w) && OnlyRoom(w.db, w'.db, r) && w'.seekers == w.seekers && !HasSpace(w'.db, r)
    ensures NoMissedRoom(w')
  {
    hide NoNewChance, NoMissedRoom, OnlyRoom, HasSpace;
    forall s ensures NoNewChance(w, w', s) { OneRoomNoChance(w, w', r, s); }
    NoChanceKeeps(w, w');
  }

  lemma AfterDepartureQuiet(w: World, u: UserId, r: RoomId)
    requires WorldInv(w) && NoMissedRoom(w) && ActiveRoom(w.db, u) == Some(r) && r in w.db.rooms && w.db.rooms[r].owner != u
    ensures var (db, d) := Depart(w.db, r, u);
            NoMissedRoom(AfterDeparture(w, u, db, d))
  {
    hide Count, Sum, NoMissedMatch, PairsInv, RoomInv, LedgerInv, Depart, SeekersInv, MirrorInv, SearchFees, RequestsInv,
      NoMissedRoom, OnlyRoom, NoNewChance, Fill;
    var (db, d) := Depart(w.db, r, u);
    DepartKeeps(w.db, r, u);
    DepartedWorld(w, u, r);
    var cleared := if d.autoDeleted then {u} + d.remaining else {u};
    var w1 := w.(db := db, mirror := ClearMirror(w.mirror, cleared));
    if d.autoDeleted {
      ShutRoomQuiet(w, w1, r);
    } else {
      forall s | s != r ensures NoNewChance(w, w1, s) { OneRoomNoChance(w, w1, r, s); }
      TriggerRestores(w, w1, r);
    }
  }

  lemma SameAfterMirror(w: World, m: Mirror)
    requires NoMissedRoom(w)
    ensures NoMissedRoom(w.(mirror := m))
  {
    hide NoMissedRoom;
    UntouchedKeeps(w, w.(mirror := m));
  }

  lemma LeftQuiet(w: World, u: UserId)
    requires WorldInv(w) && NoMissedRoom(w)
    ensures NoMissedRoom(LeaveFlow(w, u))
  {
    hide NoMissedRoom, AfterDeparture, Depart, RoomInv, LedgerInv;
    SameAfterMirror(w, ClearMirror(w.mirror, {u}));
    LeaveKeeps(w.db, u);
    var res := LeaveRoom(w.db, u).1;
    if res.Ok? { AfterDepartureQuiet(w, u, res.value.room); }
  }

  lemma KickedQuiet(w: World, u: UserId, target: UserId)
    requires WorldInv(w) && NoMissedRoom(w)
    ensures NoMissedRoom(KickFlow(w, u, target))
  {
    hide NoMissedRoom, AfterDeparture, Depart, RoomInv, LedgerInv;
    KickKeeps(w.db, u, target);
    var res := KickMember(w.db, u, target).1;
    if res.Ok? { AfterDepartureQuiet(w, target, res.value.room); }
  }

  lemma DeletedQuiet(w: World, u: UserId)
    requires WorldInv(w) && NoMissedRoom(w)
    ensures NoMissedRoom(DeleteFlow(w, u))
  {
    hide NoMissedRoom, DeleteRoom, RoomInv, LedgerInv, OnlyRoom;
    SameAfterMirror(w, ClearMirror(w.mirror, {u}));
    DeleteKeeps(w.db, u);
    var res := DeleteRoom(w.db, u).1;
    if res.Ok? { ShutRoomQuiet(w, DeleteFlow(w, u), res.value.room); }
  }

  lemma ClosedQuiet(w: World, u: UserId)
    requires WorldInv(w) && NoMissedRoom(w)
    ensures NoMissedRoom(SetOpenFlow(w, u, false))
  {
    hide NoMissedRoom, SetRoomOpen, RoomInv, LedgerInv, OnlyRoom;
    SameAfterMirror(w, ClearMirror(w.mirror, {u}));
    SetOpenKeeps(w.db, u, false);
    var res := SetRoomOpen(w.db, u, false).1;
    if res.Ok? { ShutRoomQuiet(w, SetOpenFlow(w, u, false), res.value.room); }
  }

  lemma MembershipQuiet(w: World, e: Event)
    requires WorldInv(w) && NoMissedRoom(w)
    requires e.RoomLeft? || e.MemberKicked? || e.RoomDeleted? || (e.RoomSwitched? && !e.isOpen)
    ensures NoMissedRoom(Apply(w, e))
  {
    hide WorldInv, NoMissedRoom, LeaveFlow, KickFlow, DeleteFlow, SetOpenFlow;
    match e {
      case RoomLeft(u) => LeftQuiet(w, u);
      case MemberKicked(u, target) => KickedQuiet(w, u, target);
      case RoomDeleted(u) => DeletedQuiet(w, u);
      case RoomSwitched(u, _) => ClosedQuiet(w, u);
    }
  }

  lemma CreatedNoChance(w: World, w': World, u: UserId, r: RoomId, pref: Pref, s: RoomId)
    requires Created(w.db, w'.db, u, r, pref) && w'.seekers == w.seekers && s != r
    ensures NoNewChance(w, w', s)
  {
    Unchanged(w.seekers, []);
    if HasSpace(w'.db, s) { assert s in w'.db.rooms.Keys; }
  }

  lemma CreateFlowQuiet(w: World, u: UserId, pref: Pref, capacity: int, now: real)
    requires WorldInv(w) && NoMissedRoom(w)
    ensures NoMissedRoom(CreateFlow(w, u, pref, capacity, now))
  {
    hide Count, Sum, RoomInv, LedgerInv, NoMissedMatch, PairsInv, MirrorInv, CreateRoom, Created, NoMissedRoom,
      NoNewChance, Fill;
    if !CannotStartRoomFlow(w, u) {
      var (db, res) := CreateRoom(w.db, u, pref, capacity, None, now);
      CreateKeeps(w.db, u, pref, capacity, None, now);
      if res.Ok? {
        CreatedWorld(w, u, pref, capacity, now);
        var w1 := w.(db := db, mirror := w.mirror.(room := w.mirror.room[u := res.value]));
        forall s | s != res.value ensures NoNewChance(w, w1, s) { CreatedNoChance(w, w1, u, res.value, pref, s); }
        TriggerRestores(w, w1, res.value);
      }
    }
  }
}
