/** What filling rooms does to everybody: to seekers and their jobs, to the mirror, to coins
    and to the other rooms. */
module FillEffects {
  import opened Basics
  import opened SortedSets
  import opened Ledger
  import opened Database
  import opened RoomInvariant
  import opened RoomTransactions
  import opened MatchQueue
  import opened World
  import opened RoomHandlers
  import opened WorldInvariant
  import opened RoomSteps
  import opened FillOrder
  import opened FillExactly
  import opened Effects

  /** A seeker waits on as before, or is off the queue with all its jobs. */
  ghost predicate SeekerServed(s: Seekers, s': Seekers, u: UserId) {
    || SameSeeker(s, s', u)
    || (s.Filter(u).Some? && s'.Filter(u) == None && s'.Jobs(u) == multiset{} && forall p :: Entry(s', p, u) == None)
  }

  ghost predicate SeekersServed(s: Seekers, s': Seekers) {
    forall u :: SeekerServed(s, s', u)
  }

  lemma ServedTransitive(a: Seekers, b: Seekers, c: Seekers)
    requires SeekersServed(a, b) && SeekersServed(b, c)
    ensures SeekersServed(a, c)
  {
    hide Entry, Seekers.Filter, Seekers.Jobs;
    forall u ensures SeekerServed(a, c, u) { assert SeekerServed(a, b, u) && SeekerServed(b, c, u); }
  }

  lemma ServedReflexive(s: Seekers)
    ensures SeekersServed(s, s)
  {
  }

  /** The head taken off the queue loses its jobs, and nobody else is touched. */
  lemma ReleaseServes(w: World, u: UserId, p: Pref)
    requires WorldInv(w) && u in w.seekers.Bucket(p)
    ensures SeekersServed(w.seekers, CancelJobs(DequeueSeeker(w.seekers, u, p), u))
  {
    var s1 := CancelJobs(DequeueSeeker(w.seekers, u, p), u);
    ReleasedEntries(w.seekers, u, p);
    ReleasedFilters(w, u, p);
    WorldParts(w);
    SeekerAt(w.db, w.seekers, u);
    hide WorldInv;
    assert s1.jobs == w.seekers.jobs - {u} by { ReleasedJobs(w.seekers, u, p); }
    assert forall q :: Entry(s1, q, u) == None;
    hide Entry, Seekers.Filter, CancelJobs, DequeueSeeker, Seekers.Bucket;
    forall v ensures SeekerServed(w.seekers, s1, v) {}
  }

  lemma ReleasedJobs(s: Seekers, u: UserId, p: Pref)
    ensures CancelJobs(DequeueSeeker(s, u, p), u).jobs == s.jobs - {u}
  {
  }

  lemma {:induction false} FillLoopServesSeekers(w: World, r: RoomId, buckets: seq<Pref>)
    requires WorldInv(w)
    ensures SeekersServed(w.seekers, FillLoop(w, r, buckets).seekers)
    decreases QueueSize(w.seekers)
  {
    hide WorldInv, JoinRoom, Settle, PeekOldest, SeekersServed;
    ServedReflexive(w.seekers);
    var peek := PeekOldest(w.seekers, buckets);
    if peek.Some? {
      var (u, p) := peek.value;
      var (db, res) := JoinRoom(w.db, u, r, RedisConflict(w, u));
      if !(res.Err? && RoomAtFault(res.error)) {
        var w1 := Settle(w, r, u, p, db, res);
        SettleKeeps(w, r, u, p);
        SettleShrinks(w, r, u, p, db, res);
        SettleSeekers(w, r, u, p, db, res);
        ReleaseServes(w, u, p);
        FillLoopServesSeekers(w1, r, buckets);
        ServedTransitive(w.seekers, w1.seekers, FillLoop(w1, r, buckets).seekers);
      }
    }
  }

  /** A user's room is what it was, and so is its mirror; or the user, free until now, got a
      room for which it had waited, and the mirror names it. */
  predicate RoomFollows(w: World, w': World, u: UserId) {
    && (u in w'.mirror.suppressed <==> u in w.mirror.suppressed)
    && (|| (ActiveRoom(w'.db, u) == ActiveRoom(w.db, u) && Get(w'.mirror.room, u) == Get(w.mirror.room, u))
        || (ActiveRoom(w.db, u) == None && ActiveRoom(w'.db, u).Some? && Get(w'.mirror.room, u) == ActiveRoom(w'.db, u)
            && w.seekers.Filter(u).Some? && w'.seekers.Filter(u) == None))
  }

  /** The whole effect of filling rooms. */
  ghost predicate Fills(w: World, w': World) {
    && (forall u :: RoomFollows(w, w', u)) && SeekersServed(w.seekers, w'.seekers)
    && w'.db.rooms == w.db.rooms && w'.db.nextId == w.db.nextId && NoCoinMoves(w.db, w'.db)
    && OnlyRoomSide(w, w')
  }

  lemma FillsTransitive(a: World, b: World, c: World)
    requires Fills(a, b) && Fills(b, c)
    ensures Fills(a, c)
  {
    ServedTransitive(a.seekers, b.seekers, c.seekers);
    hide SeekersServed;
    forall u ensures RoomFollows(a, c, u) {
      assert RoomFollows(a, b, u) && RoomFollows(b, c, u);
      FewerWait(a, b, u);
      FewerWait(b, c, u);
      hide Seekers.Filter, ActiveRoom;
    }
    forall x | x in a.db.users ensures Coins(c.db, x) == Coins(a.db, x) { assert Coins(b.db, x) == Coins(a.db, x); }
  }

  lemma FewerWait(a: World, b: World, u: UserId)
    requires Fills(a, b)
    ensures b.seekers.Filter(u).Some? ==> b.seekers.Filter(u) == a.seekers.Filter(u)
  {
    assert SeekerServed(a.seekers, b.seekers, u);
  }

  lemma FillsNothing(w: World)
    ensures Fills(w, w)
  {
    ServedReflexive(w.seekers);
  }

  /** The trigger: only its room gains members, and only free seekers of its line. */
  lemma FillOutcome(w: World, r: RoomId)
    requires WorldInv(w)
    ensures var w' := Fill(w, r);
            && Fills(w, w') && (forall s | s != r :: MembersOf(w'.db, s) == MembersOf(w.db, s))
            && MembersOf(w.db, r) <= MembersOf(w'.db, r)
            && (!IsOpen(w.db, r) ==> w' == w)
  {
    FillsNothing(w);
    if IsOpen(w.db, r) {
      var buckets := CompatibleBuckets(w.db.rooms[r].pref);
      FillLoopAdmits(w, r, buckets);
      FillLoopServesSeekers(w, r, buckets);
      FillLoopKeeps(w, r, buckets);
      FillLoopSequence(w, r, buckets);
      var w' := FillLoop(w, r, buckets);
      forall u ensures RoomFollows(w, w', u) {
        RoomOfMember(w, r, u);
        RoomOfMember(w', r, u);
        hide WorldInv, Seekers.Filter, FillLoop, SeekersServed;
      }
    }
  }

  lemma {:induction false} FillLoopSequence(w: World, r: RoomId, buckets: seq<Pref>)
    ensures FillLoop(w, r, buckets).db.nextId == w.db.nextId
    decreases QueueSize(w.seekers)
  {
    hide PeekOldest;
    var peek := PeekOldest(w.seekers, buckets);
    if peek.Some? {
      var (u, p) := peek.value;
      var (db, res) := JoinRoom(w.db, u, r, RedisConflict(w, u));
      if !(res.Err? && RoomAtFault(res.error)) {
        SettleShrinks(w, r, u, p, db, res);
        FillLoopSequence(Settle(w, r, u, p, db, res), r, buckets);
      }
    }
  }

  lemma {:induction false} FillAllOutcome(w: World, rooms: seq<RoomId>)
    requires WorldInv(w)
    ensures Fills(w, FillAll(w, rooms))
    decreases |rooms|
  {
    hide WorldInv, Fill, Fills;
    FillsNothing(w);
    if rooms != [] {
      FillOutcome(w, rooms[0]);
      FillKeeps(w, rooms[0]);
      FillAllOutcome(Fill(w, rooms[0]), rooms[1..]);
      FillsTransitive(w, Fill(w, rooms[0]), FillAll(w, rooms));
    }
  }
}
