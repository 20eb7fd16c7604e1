/** What the fill loop achieves: first come first served, up to the room's capacity, and
    nobody compatible is left waiting for a free place. */
module FillOrder {
  import opened Basics
  import opened SortedSets
  import opened Ledger
  import opened Database
  import opened RoomInvariant
  import opened RoomTransactions
  import opened World
  import opened RoomHandlers
  import opened WorldInvariant
  import opened RoomSteps

  lemma BucketsAgree(p: Pref, room: Pref)
    ensures p in CompatibleBuckets(room) <==> PrefsAgree(p, room)
  {
    assert CompatibleBuckets(room)[0] == if room == AnyPref then MalePref else room;
    assert room == AnyPref ==> CompatibleBuckets(room)[1] == FemalePref && CompatibleBuckets(room)[2] == AnyPref;
    assert room != AnyPref ==> CompatibleBuckets(room)[1] == AnyPref;
  }

  /** When a seeker entered a bucket, if it is there. */
  function Entry(s: Seekers, p: Pref, u: UserId): Option<real> {
    Get(s.Bucket(p), u)
  }

  ghost predicate Leaves(s: Seekers, s': Seekers, p: Pref, u: UserId) {
    Entry(s, p, u).Some? && Entry(s', p, u).None?
  }

  /** Seekers only leave; those who stay keep their place. */
  ghost predicate Shrinks(s: Seekers, s': Seekers) {
    forall p, u :: Entry(s', p, u).Some? ==> Entry(s', p, u) == Entry(s, p, u)
  }

  /** Whoever left the listed buckets came no later than whoever stayed. */
  ghost predicate Fifo(s: Seekers, s': Seekers, buckets: seq<Pref>) {
    forall p, u, q, v | p in buckets && q in buckets && Leaves(s, s', p, u) && Entry(s', q, v).Some? && Entry(s, q, v).Some?
      :: Entry(s, p, u).value <= Entry(s, q, v).value
  }

  lemma HeadIsOldest(s: Seekers, buckets: seq<Pref>, u: UserId, p: Pref)
    requires PeekOldest(s, buckets) == Some((u, p))
    ensures p in buckets && Entry(s, p, u).Some?
    ensures forall q, v | q in buckets && Entry(s, q, v).Some? :: Entry(s, p, u).value <= Entry(s, q, v).value
  {
  }

  lemma ReleasedEntries(s: Seekers, u: UserId, p: Pref)
    ensures var s1 := CancelJobs(DequeueSeeker(s, u, p), u);
            forall q, v :: Entry(s1, q, v) == if v == u && q == p then None else Entry(s, q, v)
  {
  }

  lemma FifoStep(s: Seekers, s1: Seekers, s2: Seekers, buckets: seq<Pref>, u: UserId, p: Pref)
    requires PeekOldest(s, buckets) == Some((u, p)) && s1 == CancelJobs(DequeueSeeker(s, u, p), u)
    requires Shrinks(s1, s2) && Fifo(s1, s2, buckets)
    ensures Shrinks(s, s2) && Fifo(s, s2, buckets)
  {
    hide PeekOldest, DequeueSeeker, Entry, CancelJobs;
    HeadIsOldest(s, buckets, u, p);
    ReleasedEntries(s, u, p);
    forall q, v, q', v' | q in buckets && q' in buckets && Leaves(s, s2, q, v) && Entry(s2, q', v').Some? && Entry(s, q', v').Some?
      ensures Entry(s, q, v).value <= Entry(s, q', v').value
    {
      if !(v == u && q == p) { assert Leaves(s1, s2, q, v); }
    }
  }

  lemma SettleSeekers(w: World, r: RoomId, u: UserId, p: Pref, db: Db, res: Result<RoomId>)
    ensures Settle(w, r, u, p, db, res).seekers == CancelJobs(DequeueSeeker(w.seekers, u, p), u)
  {
  }

  /** First come, first served. */
  lemma {:induction false} FillLoopIsFifo(w: World, r: RoomId, buckets: seq<Pref>)
    ensures var s' := FillLoop(w, r, buckets).seekers;
            Shrinks(w.seekers, s') && Fifo(w.seekers, s', buckets)
    decreases QueueSize(w.seekers)
  {
    hide JoinRoom, Settle, PeekOldest, Shrinks, Fifo;
    var peek := PeekOldest(w.seekers, buckets);
    assert Shrinks(w.seekers, w.seekers) && Fifo(w.seekers, w.seekers, buckets) by { Unchanged(w.seekers, buckets); }
    if peek.Some? {
      var (u, p) := peek.value;
      var (db, res) := JoinRoom(w.db, u, r, RedisConflict(w, u));
      if !(res.Err? && RoomAtFault(res.error)) {
        var w1 := Settle(w, r, u, p, db, res);
        SettleShrinks(w, r, u, p, db, res);
        SettleSeekers(w, r, u, p, db, res);
        FillLoopIsFifo(w1, r, buckets);
        FifoStep(w.seekers, w1.seekers, FillLoop(w1, r, buckets).seekers, buckets, u, p);
      }
    }
  }

  lemma Unchanged(s: Seekers, buckets: seq<Pref>)
    ensures Shrinks(s, s) && Fifo(s, s, buckets)
  {
  }

  /** The effect of admitting seekers to one room: no other room changes, and those who
      left the queue were admitted unless they already had a room. */
  ghost predicate Admits(w: World, w': World, r: RoomId) {
    && w'.db.rooms == w.db.rooms
    && (forall s | s != r :: MembersOf(w'.db, s) == MembersOf(w.db, s))
    && MembersOf(w.db, r) <= MembersOf(w'.db, r)
    && (forall u | IsMember(w'.db, r, u) && !IsMember(w.db, r, u) ::
          w.seekers.Filter(u).Some? && w'.seekers.Filter(u) == None && ActiveRoom(w.db, u) == None)
    && (forall u | w'.seekers.Filter(u).Some? :: w.seekers.Filter(u).Some?)
    && (forall u | w.seekers.Filter(u).Some? && w'.seekers.Filter(u).None? :: IsMember(w'.db, r, u) || ActiveRoom(w.db, u).Some?)
    && w'.db.users.Keys == w.db.users.Keys && (forall u | u in w.db.users :: w'.db.users[u].coins == w.db.users[u].coins)
    && w'.mirror.suppressed == w.mirror.suppressed
    && (forall u :: Get(w'.mirror.room, u) ==
          if IsMember(w'.db, r, u) && !IsMember(w.db, r, u) then Some(r) else Get(w.mirror.room, u))
    && w'.queue == w.queue && w'.pairs == w.pairs && w'.requests == w.requests && w'.db.ledger == w.db.ledger
    && (forall u | ActiveRoom(w.db, u).Some? :: ActiveRoom(w'.db, u) == ActiveRoom(w.db, u))
    && (forall u | ActiveRoom(w'.db, u).Some? :: ActiveRoom(w.db, u).Some? || IsMember(w'.db, r, u))
  }

  lemma SettleAdmits(w: World, r: RoomId, u: UserId, p: Pref)
    requires WorldInv(w) && u in w.seekers.Bucket(p)
    ensures var (db, res) := JoinRoom(w.db, u, r, RedisConflict(w, u));
            var w1 := Settle(w, r, u, p, db, res);
            !(res.Err? && RoomAtFault(res.error)) ==>
              Admits(w, w1, r) && (forall v :: w1.seekers.Filter(v) == if v == u then None else w.seekers.Filter(v))
  {
    hide Count, Sum, LedgerInv, RoomInv, SeekersInv, RequestsInv, PairsInv, Exclusive, MirrorInv, SearchFees, Settle,
      JoinRoom, Admits;
    SettleKeeps(w, r, u, p);
    JoinKeeps(w.db, u, r, None);
    var (db, res) := JoinRoom(w.db, u, r, None);
    SettleFilters(w, r, u, p, db, res);
    FilterIff(w.seekers, u);
    if res.Ok? {
      SettleParts(w, r, u, p, db, res);
      JoinedRooms(w.db, db, u, r);
      JoinAdmits(w, Settle(w, r, u, p, db, res), r, u);
    } else if res.error == HasActiveRoom {
      SettleParts(w, r, u, p, db, res);
      DropAdmits(w, Settle(w, r, u, p, db, res), r, u);
    }
  }

  lemma JoinAdmits(w: World, w1: World, r: RoomId, u: UserId)
    requires OnlyRoom(w.db, w1.db, r) && w1.db.rooms == w.db.rooms && MembersOf(w1.db, r) == MembersOf(w.db, r) + {u}
    requires u !in MembersOf(w.db, r) && ActiveRoom(w.db, u) == None && w.seekers.Filter(u).Some?
    requires forall v :: ActiveRoom(w1.db, v) == if v == u then Some(r) else ActiveRoom(w.db, v)
    requires forall v :: w1.seekers.Filter(v) == if v == u then None else w.seekers.Filter(v)
    requires w1 == w.(db := w1.db, seekers := w1.seekers, mirror := w.mirror.(room := w.mirror.room[u := r]))
    ensures Admits(w, w1, r)
  {
    hide Seekers.Filter;
  }

  /** A seeker who has a room already just loses its place. */
  lemma DropAdmits(w: World, w1: World, r: RoomId, u: UserId)
    requires ActiveRoom(w.db, u).Some?
    requires forall v :: w1.seekers.Filter(v) == if v == u then None else w.seekers.Filter(v)
    requires w1 == w.(seekers := w1.seekers)
    ensures Admits(w, w1, r)
  {
    hide Seekers.Filter;
  }

  lemma AdmitsTransitive(a: World, b: World, c: World, r: RoomId)
    requires Admits(a, b, r) && Admits(b, c, r)
    ensures Admits(a, c, r)
  {
    hide Seekers.Filter;
    forall u | IsMember(c.db, r, u) && !IsMember(a.db, r, u)
      ensures a.seekers.Filter(u).Some? && c.seekers.Filter(u) == None && ActiveRoom(a.db, u) == None
    {
      if IsMember(b.db, r, u) {
        assert b.seekers.Filter(u) == None;
        assert c.seekers.Filter(u).Some? ==> b.seekers.Filter(u).Some?;
      } else {
        assert b.seekers.Filter(u).Some?;
      }
    }
    forall u | a.seekers.Filter(u).Some? && c.seekers.Filter(u).None?
      ensures IsMember(c.db, r, u) || ActiveRoom(a.db, u).Some?
    {
      if b.seekers.Filter(u).Some? && !IsMember(c.db, r, u) { assert ActiveRoom(b.db, u).Some?; }
    }
  }

  /** Only `r` gains members, each of them from the queue and free before. */
  lemma {:induction false} FillLoopAdmits(w: World, r: RoomId, buckets: seq<Pref>)
    requires WorldInv(w)
    ensures Admits(w, FillLoop(w, r, buckets), r)
    decreases QueueSize(w.seekers)
  {
    hide WorldInv, JoinRoom, Settle, PeekOldest, Admits;
    var peek := PeekOldest(w.seekers, buckets);
    assert Admits(w, w, r) by { AdmitsNobody(w, r); }
    if peek.Some? {
      var (u, p) := peek.value;
      var (db, res) := JoinRoom(w.db, u, r, RedisConflict(w, u));
      if !(res.Err? && RoomAtFault(res.error)) {
        var w1 := Settle(w, r, u, p, db, res);
        SettleKeeps(w, r, u, p);
        SettleAdmits(w, r, u, p);
        SettleShrinks(w, r, u, p, db, res);
        FillLoopAdmits(w1, r, buckets);
        AdmitsTransitive(w, w1, FillLoop(w1, r, buckets), r);
      }
    }
  }

  lemma AdmitsNobody(w: World, r: RoomId)
    ensures Admits(w, w, r)
  {
  }

  /** A seeker the room would take waits while the room has a free place. */
  ghost predicate Missed(w: World, r: RoomId, p: Pref, u: UserId) {
    HasSpace(w.db, r) && PrefsAgree(p, w.db.rooms[r].pref) && u in w.seekers.Bucket(p)
  }

  ghost predicate NobodyMissed(w: World, r: RoomId) {
    forall p, u :: !Missed(w, r, p, u)
  }

  /** When the loop stops, the room is full or nobody it would take is waiting. */
  lemma {:induction false} FillLoopSettles(w: World, r: RoomId, buckets: seq<Pref>)
    requires WorldInv(w) && IsOpen(w.db, r) && buckets == CompatibleBuckets(w.db.rooms[r].pref)
    ensures NobodyMissed(FillLoop(w, r, buckets), r)
    decreases QueueSize(w.seekers)
  {
    hide WorldInv, JoinRoom, Settle, PeekOldest, Missed;
    var peek := PeekOldest(w.seekers, buckets);
    if peek.None? {
      assert NobodyMissed(w, r) by { NobodyToTake(w, r, buckets); }
    } else {
      var (u, p) := peek.value;
      var (db, res) := JoinRoom(w.db, u, r, RedisConflict(w, u));
      if res.Err? && RoomAtFault(res.error) {
        RefusedForLackOfSpace(w, r, u, p);
      } else {
        var w1 := Settle(w, r, u, p, db, res);
        SettleKeeps(w, r, u, p);
        SettleAdmits(w, r, u, p);
        SettleShrinks(w, r, u, p, db, res);
        FillLoopSettles(w1, r, buckets);
      }
    }
  }

  lemma NobodyToTake(w: World, r: RoomId, buckets: seq<Pref>)
    requires IsOpen(w.db, r) && buckets == CompatibleBuckets(w.db.rooms[r].pref)
    requires PeekOldest(w.seekers, buckets).None?
    ensures NobodyMissed(w, r)
  {
    forall p, u ensures !Missed(w, r, p, u) { BucketsAgree(p, w.db.rooms[r].pref); }
  }

  lemma RefusedForLackOfSpace(w: World, r: RoomId, u: UserId, p: Pref)
    requires WorldInv(w) && IsOpen(w.db, r) && u in w.seekers.Bucket(p)
    ensures var res := JoinRoom(w.db, u, r, RedisConflict(w, u)).1;
            res.Err? && RoomAtFault(res.error) ==> !HasSpace(w.db, r) && NobodyMissed(w, r)
  {
    hide Count, Sum, LedgerInv, RoomInv, RequestsInv, PairsInv, Exclusive, MirrorInv, SearchFees;
    SettleKeeps(w, r, u, p);
    SeekerIsUser(w.db, w.seekers, u, p);
  }
}
