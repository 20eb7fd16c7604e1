/** Exactly whom the fill loop takes off the queue: a place in line, counted in the free
    seekers ahead, against the free places of the room. */
module FillExactly {
  import opened Basics
  import opened SortedSets
  import opened Ledger
  import opened Database
  import opened RoomInvariant
  import opened RoomTransactions
  import opened MatchQueue
  import opened World
  import opened RoomHandlers
  import opened WorldInvariant
  import opened RoomSteps
  import opened FillOrder

  function Rank(p: Pref): nat {
    match p
    case MalePref => 0
    case FemalePref => 1
    case AnyPref => 2
  }

  /** The seeker `v` of bucket `q` has its turn before the seeker `u` of bucket `p`. */
  predicate Ahead(s: Seekers, q: Pref, v: UserId, p: Pref, u: UserId) {
    && v in s.Bucket(q) && u in s.Bucket(p)
    && (|| s.Bucket(q)[v] < s.Bucket(p)[u]
        || (s.Bucket(q)[v] == s.Bucket(p)[u] && (Rank(q) < Rank(p) || (q == p && LexLess(v, u)))))
  }

  // ---------------------------------------------------------------- the head of the line

  /** The last bucket of the list wins only over later heads. */
  lemma PeekStep(s: Seekers, buckets: seq<Pref>, u: UserId, p: Pref)
    requires PeekOldest(s, buckets) == Some((u, p)) && buckets != []
    ensures var n := |buckets| - 1;
            PeekOldest(s, buckets[..n]) == Some((u, p)) || (buckets[n] == p && LaterUpTo(s, buckets, n, s.Bucket(p)[u]))
  {
    hide Seekers.Bucket, IsFirst;
    var n := |buckets| - 1;
    var best := PeekOldest(s, buckets[..n]);
    if best != Some((u, p)) {
      forall i, v | 0 <= i < n && v in s.Bucket(buckets[i]) ensures s.Bucket(buckets[i])[v] > s.Bucket(p)[u] {
        assert buckets[i] in buckets[..n];
      }
    }
  }

  lemma LaterPrefix(s: Seekers, buckets: seq<Pref>, n: nat, j: nat, time: real)
    requires j <= n <= |buckets| && LaterUpTo(s, buckets[..n], j, time)
    ensures LaterUpTo(s, buckets, j, time)
  {
    hide Seekers.Bucket;
    forall i, v | 0 <= i < j && v in s.Bucket(buckets[i]) ensures s.Bucket(buckets[i])[v] > time {
      assert buckets[i] == buckets[..n][i];
    }
  }

  /** On a tie the bucket listed first goes first. */
  lemma {:induction false} PeekTie(s: Seekers, buckets: seq<Pref>, u: UserId, p: Pref)
    requires PeekOldest(s, buckets) == Some((u, p))
    ensures exists j | 0 <= j < |buckets| :: buckets[j] == p && LaterUpTo(s, buckets, j, s.Bucket(p)[u])
  {
    assert buckets != [];
    PeekStep(s, buckets, u, p);
    hide Seekers.Bucket, PeekOldest, LaterUpTo;
    var n := |buckets| - 1;
    if PeekOldest(s, buckets[..n]) == Some((u, p)) {
      PeekTie(s, buckets[..n], u, p);
      var j :| 0 <= j < n && buckets[..n][j] == p && LaterUpTo(s, buckets[..n], j, s.Bucket(p)[u]);
      LaterPrefix(s, buckets, n, j, s.Bucket(p)[u]);
      assert buckets[j] == p;
    }
  }

  /** The first `j` buckets hold only later entries. */
  ghost predicate LaterUpTo(s: Seekers, buckets: seq<Pref>, j: nat, time: real)
    requires j <= |buckets|
  {
    forall i, v | 0 <= i < j && v in s.Bucket(buckets[i]) :: s.Bucket(buckets[i])[v] > time
  }

  lemma LaterThan(s: Seekers, buckets: seq<Pref>, j: nat, time: real, i: nat, u: UserId)
    requires j <= |buckets| && LaterUpTo(s, buckets, j, time) && i < |buckets| && u in s.Bucket(buckets[i])
    ensures i < j ==> s.Bucket(buckets[i])[u] > time
  {
  }

  lemma BucketRanks(room: Pref)
    ensures var b := CompatibleBuckets(room);
            forall i, j | 0 <= i < |b| && 0 <= j < |b| :: i < j <==> Rank(b[i]) < Rank(b[j])
  {
  }

  /** Buckets listed before that of the head hold only later entries. */
  lemma EarlierBucketIsLater(s: Seekers, room: Pref, h: UserId, hp: Pref, p: Pref, u: UserId)
    requires PeekOldest(s, CompatibleBuckets(room)) == Some((h, hp))
    requires PrefsAgree(p, room) && u in s.Bucket(p)
    ensures Rank(p) < Rank(hp) ==> s.Bucket(hp)[h] < s.Bucket(p)[u]
  {
    var b := CompatibleBuckets(room);
    BucketsAgree(p, room);
    BucketRanks(room);
    PeekTie(s, b, h, hp);
    hide PeekOldest, Seekers.Bucket, CompatibleBuckets, LaterUpTo, Rank;
    var j :| 0 <= j < |b| && b[j] == hp && LaterUpTo(s, b, j, s.Bucket(hp)[h]);
    var i :| 0 <= i < |b| && b[i] == p;
    LaterThan(s, b, j, s.Bucket(hp)[h], i, u);
  }

  /** The oldest seeker is ahead of all others in the buckets the room takes from. */
  lemma HeadIsAhead(s: Seekers, room: Pref, h: UserId, hp: Pref, p: Pref, u: UserId)
    requires PeekOldest(s, CompatibleBuckets(room)) == Some((h, hp))
    requires PrefsAgree(p, room) && u in s.Bucket(p)
    ensures PrefsAgree(hp, room) && h in s.Bucket(hp)
    ensures (u, p) != (h, hp) ==> Ahead(s, hp, h, p, u)
    ensures !Ahead(s, p, u, hp, h)
  {
    BucketsAgree(p, room);
    BucketsAgree(hp, room);
    assert h in s.Bucket(hp) && s.Bucket(hp)[h] <= s.Bucket(p)[u];
    assert p == hp && u != h ==> Precedes(s.Bucket(hp), h, u);
    EarlierBucketIsLater(s, room, h, hp, p, u);
    hide PeekOldest, Seekers.Bucket, CompatibleBuckets, IsFirst, LexLess;
    LexAsymmetric(h, u);
  }

  // ---------------------------------------------------------------- one turn

  /** What the turn of the head changes: it stops the loop just when it is free and the room
      is full, joins when it is free, and otherwise only loses its place. */
  lemma TurnOf(w: World, r: RoomId, h: UserId, hp: Pref)
    requires WorldInv(w) && IsOpen(w.db, r) && h in w.seekers.Bucket(hp)
    ensures var (db, res) := JoinRoom(w.db, h, r, RedisConflict(w, h));
            var w1 := Settle(w, r, h, hp, db, res);
            var free := ActiveRoom(w.db, h) == None;
            && (res.Err? && RoomAtFault(res.error) <==> free && Spare(w.db, r) <= 0)
            && (!(res.Err? && RoomAtFault(res.error)) ==>
                  && w1.db.rooms == w.db.rooms && w1.db.users.Keys == w.db.users.Keys
                  && (forall v :: ActiveRoom(w1.db, v) == if v == h && free then Some(r) else ActiveRoom(w.db, v))
                  && Spare(w1.db, r) == Spare(w.db, r) - (if free then 1 else 0))
  {
    hide Count, Sum, LedgerInv, NoMissedMatch, PairsInv, SeekersInv, RequestsInv, SearchFees, MirrorInv, Exclusive,
      Settle, Seekers.Bucket;
    SettleKeeps(w, r, h, hp);
    SeekerIsUser(w.db, w.seekers, h, hp);
    JoinKeeps(w.db, h, r, None);
    var (db, res) := JoinRoom(w.db, h, r, None);
    if res.Ok? { JoinedRooms(w.db, db, h, r); }
    if res.Ok? || res.error == HasActiveRoom { SettleParts(w, r, h, hp, db, res); }
  }

  function Spare(db: Db, r: RoomId): int
    requires r in db.rooms
  {
    db.rooms[r].capacity - |MembersOf(db, r)|
  }

  /** The seeker waits under a filter the room agrees with. */
  predicate InLine(s: Seekers, room: Pref, u: UserId) {
    s.Filter(u).Some? && PrefsAgree(s.Filter(u).value, room)
  }

  /** A seeker who can join and has its turn before `u`. */
  predicate GoesFirst(w: World, room: Pref, u: UserId, v: UserId) {
    && InLine(w.seekers, room, v) && InLine(w.seekers, room, u) && ActiveRoom(w.db, v) == None
    && Ahead(w.seekers, w.seekers.Filter(v).value, v, w.seekers.Filter(u).value, u)
  }

  function FreeAhead(w: World, room: Pref, u: UserId): set<UserId> {
    set v | v in w.db.users && GoesFirst(w, room, u, v)
  }

  /** The seeker's turn comes: those ahead of it who can join leave a place, which a seeker
      who is in a room already does not even need. */
  predicate Taken(w: World, r: RoomId, u: UserId) {
    && IsOpen(w.db, r) && InLine(w.seekers, w.db.rooms[r].pref, u)
    && |FreeAhead(w, w.db.rooms[r].pref, u)| < Spare(w.db, r) + (if ActiveRoom(w.db, u) == None then 0 else 1)
  }

  /** Nobody is ahead of the head. */
  lemma HeadsLine(w: World, room: Pref, h: UserId, hp: Pref)
    requires WorldInv(w) && PeekOldest(w.seekers, CompatibleBuckets(room)) == Some((h, hp))
    ensures InLine(w.seekers, room, h) && FreeAhead(w, room, h) == {}
  {
    hide Count, DbInv, NoMissedMatch, PairsInv, RequestsInv, SearchFees, MirrorInv, Exclusive, PeekOldest, Ahead,
      Seekers.Filter, CompatibleBuckets;
    WorldParts(w);
    BucketsAgree(hp, room);
    HeadOf(w.seekers, room, h, hp);
    SeekerAt(w.db, w.seekers, h);
    forall v ensures !GoesFirst(w, room, h, v) {
      SeekerAt(w.db, w.seekers, v);
      if InLine(w.seekers, room, v) { HeadIsAhead(w.seekers, room, h, hp, w.seekers.Filter(v).value, v); }
    }
  }

  lemma HeadOf(s: Seekers, room: Pref, h: UserId, hp: Pref)
    requires PeekOldest(s, CompatibleBuckets(room)) == Some((h, hp))
    ensures hp in CompatibleBuckets(room) && h in s.Bucket(hp)
  {
  }

  lemma HeadIsFreeAhead(w: World, room: Pref, h: UserId, hp: Pref, u: UserId)
    requires WorldInv(w) && PeekOldest(w.seekers, CompatibleBuckets(room)) == Some((h, hp))
    requires InLine(w.seekers, room, u) && u != h
    ensures h in FreeAhead(w, room, u) <==> ActiveRoom(w.db, h) == None
  {
    hide Count, DbInv, NoMissedMatch, PairsInv, RequestsInv, SearchFees, MirrorInv, Exclusive, PeekOldest, Ahead,
      Seekers.Filter, CompatibleBuckets, SeekersInv;
    WorldParts(w);
    HeadOf(w.seekers, room, h, hp);
    BucketsAgree(hp, room);
    SeekerAt(w.db, w.seekers, h);
    SeekerAt(w.db, w.seekers, u);
    HeadIsAhead(w.seekers, room, h, hp, w.seekers.Filter(u).value, u);
  }

  /** The turn of the head takes the head, and nobody else, out of the line ahead of `u`. */
  lemma LineMoves(w: World, w1: World, r: RoomId, room: Pref, h: UserId, hp: Pref, u: UserId)
    requires WorldInv(w) && h in w.seekers.Bucket(hp) && InLine(w.seekers, room, u) && u != h
    requires w1.seekers == CancelJobs(DequeueSeeker(w.seekers, h, hp), h) && w1.db.users.Keys == w.db.users.Keys
    requires forall v :: ActiveRoom(w1.db, v) == if v == h && ActiveRoom(w.db, h) == None then Some(r) else ActiveRoom(w.db, v)
    ensures InLine(w1.seekers, room, u) && FreeAhead(w1, room, u) == FreeAhead(w, room, u) - {h}
  {
    hide Count, Ahead, Seekers.Filter, Seekers.Bucket, DequeueSeeker, CancelJobs;
    ReleasedFilters(w, h, hp);
    hide WorldInv;
    forall v ensures GoesFirst(w1, room, u, v) <==> GoesFirst(w, room, u, v) && v != h {
      if v != h && w.seekers.Filter(v).Some? {
        SameAhead(w.seekers, h, hp, w.seekers.Filter(v).value, v, w.seekers.Filter(u).value, u);
      }
    }
  }

  lemma ReleasedFilters(w: World, h: UserId, hp: Pref)
    requires WorldInv(w) && h in w.seekers.Bucket(hp)
    ensures var s1 := CancelJobs(DequeueSeeker(w.seekers, h, hp), h);
            forall v :: s1.Filter(v) == if v == h then None else w.seekers.Filter(v)
  {
    WorldParts(w);
    SeekerIsUser(w.db, w.seekers, h, hp);
    hide WorldInv;
    DequeueFilters(w.seekers, h, hp);
    var s1 := DequeueSeeker(w.seekers, h, hp);
    assert forall v :: CancelJobs(s1, h).Filter(v) == s1.Filter(v);
  }

  lemma SameAhead(s: Seekers, h: UserId, hp: Pref, q: Pref, v: UserId, p: Pref, u: UserId)
    requires u != h && v != h
    ensures Ahead(CancelJobs(DequeueSeeker(s, h, hp), h), q, v, p, u) == Ahead(s, q, v, p, u)
  {
    hide LexLess;
    ReleasedEntries(s, h, hp);
    var s1 := CancelJobs(DequeueSeeker(s, h, hp), h);
    assert Entry(s1, q, v) == Entry(s, q, v) && Entry(s1, p, u) == Entry(s, p, u);
    hide CancelJobs, DequeueSeeker, Seekers.Bucket;
  }

  // ---------------------------------------------------------------- the whole loop

  /** The head itself is taken unless it is free and the room full. */
  lemma HeadTakenExactly(w: World, r: RoomId, u: UserId, p: Pref)
    requires WorldInv(w) && IsOpen(w.db, r)
    requires PeekOldest(w.seekers, CompatibleBuckets(w.db.rooms[r].pref)) == Some((u, p))
    ensures FillLoop(w, r, CompatibleBuckets(w.db.rooms[r].pref)).seekers.Filter(u) == None <==> Taken(w, r, u)
  {
    hide WorldInv, JoinRoom, Settle, PeekOldest, Seekers.Filter, FreeAhead, CompatibleBuckets, PrefsAgree, CancelJobs, DequeueSeeker;
    var room := w.db.rooms[r].pref;
    HeadOf(w.seekers, room, u, p);
    TurnOf(w, r, u, p);
    var (db, res) := JoinRoom(w.db, u, r, RedisConflict(w, u));
    var w1 := Settle(w, r, u, p, db, res);
    HeadsLine(w, room, u, p);
    assert Taken(w, r, u) <==> !(res.Err? && RoomAtFault(res.error)) by { SpareIsNat(w, r); }
    if !(res.Err? && RoomAtFault(res.error)) {
      SettleSeekers(w, r, u, p, db, res);
      ReleasedFilters(w, u, p);
      SettleKeeps(w, r, u, p);
      StaysOut(w1, r, CompatibleBuckets(room), u);
    }
  }

  lemma SpareIsNat(w: World, r: RoomId)
    requires WorldInv(w) && r in w.db.rooms
    ensures Spare(w.db, r) >= 0
  {
    assert RoomOk(w.db, r);
  }

  /** After the turn of somebody else the seeker's turn comes exactly if it came before. */
  lemma TurnMovesLine(w: World, r: RoomId, h: UserId, hp: Pref, u: UserId)
    requires WorldInv(w) && IsOpen(w.db, r) && InLine(w.seekers, w.db.rooms[r].pref, u) && u != h
    requires PeekOldest(w.seekers, CompatibleBuckets(w.db.rooms[r].pref)) == Some((h, hp))
    ensures var (db, res) := JoinRoom(w.db, h, r, RedisConflict(w, h));
            var w1 := Settle(w, r, h, hp, db, res);
            if res.Err? && RoomAtFault(res.error) then !Taken(w, r, u)
            else w1.db.rooms == w.db.rooms && InLine(w1.seekers, w.db.rooms[r].pref, u) && (Taken(w1, r, u) <==> Taken(w, r, u))
  {
    hide WorldInv, JoinRoom, Settle, PeekOldest, Seekers.Filter, FreeAhead, CompatibleBuckets, PrefsAgree, CancelJobs, DequeueSeeker;
    var room := w.db.rooms[r].pref;
    HeadOf(w.seekers, room, h, hp);
    TurnOf(w, r, h, hp);
    HeadIsFreeAhead(w, room, h, hp, u);
    var (db, res) := JoinRoom(w.db, h, r, RedisConflict(w, h));
    if res.Err? && RoomAtFault(res.error) {
      assert |FreeAhead(w, room, u)| >= 1;
    } else {
      SettleSeekers(w, r, h, hp, db, res);
      LineMoves(w, Settle(w, r, h, hp, db, res), r, room, h, hp, u);
    }
  }

  /** The loop takes a seeker exactly when its turn comes. */
  lemma {:induction false} FillLoopTakesExactly(w: World, r: RoomId, u: UserId)
    requires WorldInv(w) && IsOpen(w.db, r) && InLine(w.seekers, w.db.rooms[r].pref, u)
    ensures FillLoop(w, r, CompatibleBuckets(w.db.rooms[r].pref)).seekers.Filter(u) == None <==> Taken(w, r, u)
    decreases QueueSize(w.seekers)
  {
    hide WorldInv, JoinRoom, Settle, PeekOldest, Seekers.Filter, CompatibleBuckets, InLine, Taken;
    var room := w.db.rooms[r].pref;
    match PeekOldest(w.seekers, CompatibleBuckets(room))
    case None => NobodyInLine(w, room, u);
    case Some((h, hp)) =>
      HeadOf(w.seekers, room, h, hp);
      if u == h {
        HeadTakenExactly(w, r, u, hp);
      } else {
        TurnMovesLine(w, r, h, hp, u);
        var (db, res) := JoinRoom(w.db, h, r, RedisConflict(w, h));
        if res.Err? && RoomAtFault(res.error) {
          assert w.seekers.Filter(u).Some? by { InLineWaits(w, room, u); }
        } else {
          SettleKeeps(w, r, h, hp);
          SettleShrinks(w, r, h, hp, db, res);
          FillLoopTakesExactly(Settle(w, r, h, hp, db, res), r, u);
        }
      }
  }

  lemma InLineWaits(w: World, room: Pref, u: UserId)
    requires InLine(w.seekers, room, u)
    ensures w.seekers.Filter(u).Some?
  {
  }

  lemma NobodyInLine(w: World, room: Pref, u: UserId)
    requires WorldInv(w) && PeekOldest(w.seekers, CompatibleBuckets(room)).None?
    ensures !InLine(w.seekers, room, u)
  {
    WorldParts(w);
    SeekerAt(w.db, w.seekers, u);
    if w.seekers.Filter(u).Some? { BucketsAgree(w.seekers.Filter(u).value, room); }
  }

  /** The loop puts nobody into the queue. */
  lemma StaysOut(w: World, r: RoomId, buckets: seq<Pref>, u: UserId)
    requires WorldInv(w) && w.seekers.Filter(u) == None
    ensures FillLoop(w, r, buckets).seekers.Filter(u) == None
  {
    hide WorldInv, FillLoop;
    FillLoopAdmits(w, r, buckets);
  }

  /** A seeker the room does not agree with keeps its place. */
  lemma {:induction false} OutsidersStay(w: World, r: RoomId, room: Pref, u: UserId)
    requires WorldInv(w) && w.seekers.Filter(u).Some? && !PrefsAgree(w.seekers.Filter(u).value, room)
    ensures FillLoop(w, r, CompatibleBuckets(room)).seekers.Filter(u) == w.seekers.Filter(u)
    decreases QueueSize(w.seekers)
  {
    hide WorldInv, JoinRoom, Settle, PeekOldest, Seekers.Filter, CompatibleBuckets, PrefsAgree, CancelJobs, DequeueSeeker;
    var peek := PeekOldest(w.seekers, CompatibleBuckets(room));
    if peek.Some? {
      var (h, hp) := peek.value;
      HeadOf(w.seekers, room, h, hp);
      BucketsAgree(hp, room);
      WorldParts(w);
      SeekerAt(w.db, w.seekers, h);
      var (db, res) := JoinRoom(w.db, h, r, RedisConflict(w, h));
      if !(res.Err? && RoomAtFault(res.error)) {
        SettleKeeps(w, r, h, hp);
        SettleSeekers(w, r, h, hp, db, res);
        ReleasedFilters(w, h, hp);
        SettleShrinks(w, r, h, hp, db, res);
        OutsidersStay(Settle(w, r, h, hp, db, res), r, room, u);
      }
    }
  }

  /** The trigger, seen by one seeker: it leaves the queue exactly when its turn comes, and
      then it is in the room, unless it was in another one all along. */
  lemma FillTakesExactly(w: World, r: RoomId, u: UserId)
    requires WorldInv(w) && w.seekers.Filter(u).Some?
    ensures var w' := Fill(w, r);
            && (w'.seekers.Filter(u) == None <==> Taken(w, r, u))
            && ActiveRoom(w'.db, u) == if Taken(w, r, u) && ActiveRoom(w.db, u) == None then Some(r) else ActiveRoom(w.db, u)
  {
    hide WorldInv, FillLoop, FreeAhead, Seekers.Filter, CompatibleBuckets;
    if IsOpen(w.db, r) {
      var room := w.db.rooms[r].pref;
      if PrefsAgree(w.seekers.Filter(u).value, room) { FillLoopTakesExactly(w, r, u); } else { OutsidersStay(w, r, room, u); }
      FillLoopAdmits(w, r, CompatibleBuckets(room));
      FillKeeps(w, r);
      RoomOfMember(w, r, u);
      RoomOfMember(Fill(w, r), r, u);
    }
  }

  lemma RoomOfMember(w: World, r: RoomId, u: UserId)
    requires WorldInv(w)
    ensures ActiveRoom(w.db, u) == Some(r) <==> IsMember(w.db, r, u)
  {
  }

  // ---------------------------------------------------------------- after a departure

  /** The line ahead of a seeker depends on the queue and on who has a room. */
  lemma SameLine(w: World, w1: World, room: Pref, u: UserId)
    requires w1.seekers == w.seekers && w1.db.users.Keys == w.db.users.Keys
    requires forall v | w.seekers.Filter(v).Some? :: ActiveRoom(w1.db, v) == ActiveRoom(w.db, v)
    ensures FreeAhead(w1, room, u) == FreeAhead(w, room, u)
  {
    hide Ahead, Seekers.Filter;
    forall v ensures GoesFirst(w1, room, u, v) <==> GoesFirst(w, room, u, v) {}
  }

  /** The state in which the trigger runs after `v` left room `r`. */
  function Without(w: World, v: UserId, r: RoomId): World
    requires ActiveRoom(w.db, v).Some?
  {
    w.(db := RemoveMember(w.db, r, v))
  }

  /** A departure that leaves two members at least just removes one row, and the trigger runs
      in the state that leaves. */
  lemma DepartureTriggers(w: World, v: UserId, r: RoomId)
    requires WorldInv(w) && ActiveRoom(w.db, v) == Some(r) && r in w.db.rooms && w.db.rooms[r].owner != v
    ensures var (db, d) := Depart(w.db, r, v);
            && (|MembersOf(w.db, r)| > 2 <==> !d.autoDeleted)
            && (!d.autoDeleted ==> d.room == r && db == RemoveMember(w.db, r, v))
  {
    hide Count, Sum, LedgerInv, NoMissedMatch, PairsInv, MirrorInv, SeekersInv, RequestsInv, Exclusive, SearchFees;
    ActiveIffMember(w.db, v, r);
    assert |MembersOf(w.db, r) - {v}| == |MembersOf(w.db, r)| - 1;
  }
}
