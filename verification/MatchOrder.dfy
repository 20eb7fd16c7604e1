/** What match-or-enqueue does, told without its loops: whom it finds, and whom it touches. */
module MatchOrder {
  import opened Basics
  import opened SortedSets
  import opened MatchQueue

  /** `(g, c)` is searched before `(h, d)`: the male bucket first, then by time of entry and
      then by the bytes of the id. */
  predicate Before(q: Queue, g: Gender, c: UserId, h: Gender, d: UserId)
    requires c in q.Bucket(g) && d in q.Bucket(h)
  {
    (g == Male && h == Female) || (g == h && Precedes(q.Bucket(g), c, d))
  }

  ghost predicate EarliestIn(q: Queue, self: UserId, own: Gender, want: Option<Gender>, g: Gender, c: UserId) {
    && Searched(want, g) && c in q.Bucket(g) && Suits(q, self, own, c)
    && forall h, d | Searched(want, h) && d in q.Bucket(h) && d != c && Suits(q, self, own, d) :: Before(q, g, c, h, d)
  }

  lemma EarliestInBucket(q: Queue, self: UserId, own: Gender, g: Gender, c: UserId)
    requires FirstMatch(q, self, own, Range(q.Bucket(g))) == Some(c)
    ensures c in q.Bucket(g) && Suits(q, self, own, c)
    ensures forall d | d in q.Bucket(g) && d != c && Suits(q, self, own, d) :: Precedes(q.Bucket(g), c, d)
  {
    hide FirstMatch, Precedes;
    var s := Range(q.Bucket(g));
    var i :| 0 <= i < |s| && s[i] == c && Suits(q, self, own, c) && forall j | 0 <= j < i :: !Suits(q, self, own, s[j]);
    assert c in s;
    forall d | d in q.Bucket(g) && d != c && Suits(q, self, own, d) ensures Precedes(q.Bucket(g), c, d) {
      assert d in s;
      var j :| 0 <= j < |s| && s[j] == d;
      assert i < j;
    }
  }

  lemma OneBucket(q: Queue, g: Gender)
    ensures Members(q, [g]) == Range(q.Bucket(g))
  {
    assert Members(q, []) == [];
    assert [g][1..] == [];
    assert Range(q.Bucket(g)) + [] == Range(q.Bucket(g));
  }

  /** The candidate list of each kind of caller. */
  lemma CandidateLists(q: Queue, want: Option<Gender>)
    ensures Candidates(q, want) == if want.Some? then Range(q.Bucket(want.value)) else Range(q.male) + Range(q.female)
  {
    hide Range;
    OneBucket(q, Male);
    OneBucket(q, Female);
    assert [Male, Female][1..] == [Female];
  }

  /** Where a member was found: in the first bucket searched that has somebody suitable. */
  lemma FoundWhere(q: Queue, self: UserId, own: Gender, want: Option<Gender>)
    ensures var found := FirstMatch(q, self, own, Candidates(q, want));
            var inMale := FirstMatch(q, self, own, Range(q.male));
            found == match want
                     case Some(g) => FirstMatch(q, self, own, Range(q.Bucket(g)))
                     case None => if inMale.Some? then inMale else FirstMatch(q, self, own, Range(q.female))
  {
    hide FirstMatch, Range, Candidates;
    CandidateLists(q, want);
    FirstMatchAppend(q, self, own, Range(q.male), Range(q.female));
  }

  /** The search finds somebody exactly when somebody searched suits, and then the earliest. */
  lemma SearchFindsEarliest(q: Queue, self: UserId, own: Gender, want: Option<Gender>)
    ensures var found := FirstMatch(q, self, own, Candidates(q, want));
            && (found.None? <==> forall g, c | Searched(want, g) && c in q.Bucket(g) :: !Suits(q, self, own, c))
            && (found.Some? ==> exists g :: EarliestIn(q, self, own, want, g, found.value))
  {
    hide FirstMatch, Range, Candidates, Precedes, Suits;
    var found := FirstMatch(q, self, own, Candidates(q, want));
    FoundWhere(q, self, own, want);
    var g := match want case Some(g) => g case None => if FirstMatch(q, self, own, Range(q.male)).Some? then Male else Female;
    if found.Some? {
      EarliestInBucket(q, self, own, g, found.value);
      assert EarliestIn(q, self, own, want, g, found.value);
    } else {
      forall h, c | Searched(want, h) && c in q.Bucket(h) ensures !Suits(q, self, own, c) { assert c in Range(q.Bucket(h)); }
    }
  }

  /** Nothing about `v` changed. */
  ghost predicate Untouched(q: Queue, q': Queue, v: UserId) {
    Get(q'.male, v) == Get(q.male, v) && Get(q'.female, v) == Get(q.female, v) && Get(q'.desired, v) == Get(q.desired, v)
  }

  lemma DequeueTouchesOne(q: Queue, u: UserId)
    ensures !Dequeue(q, u).Waiting(u) && forall v | v != u :: Untouched(q, Dequeue(q, u), v)
  {
  }

  lemma EnqueueTouchesOne(q: Queue, u: UserId, own: Gender, want: Option<Gender>, now: real)
    ensures var q' := Enqueue(q, u, own, want, now);
            Get(q'.Bucket(own), u) == Some(now) && Get(q'.desired, u) == want && forall v | v != u :: Untouched(q, q', v)
  {
  }

  /** The whole effect of the script. A match takes the found user out of both buckets and
      touches nobody else, the caller included; without one the caller waits under its
      gender and its wish, and nobody else is touched. */
  lemma MatchOrEnqueueEffect(q: Queue, self: UserId, own: Gender, want: Option<Gender>, now: real)
    ensures var (q', found) := MatchOrEnqueue(q, self, own, want, now);
            && (found.Some? ==>
                  found.value != self && !q'.Waiting(found.value) && forall v | v != found.value :: Untouched(q, q', v))
            && (found.None? ==>
                  Get(q'.Bucket(own), self) == Some(now) && Get(q'.desired, self) == want && forall v | v != self :: Untouched(q, q', v))
  {
    hide FirstMatch, Candidates, Enqueue, Dequeue, Untouched;
    var found := FirstMatch(q, self, own, Candidates(q, want));
    if found.Some? {
      assert IsFirstMatch(q, self, own, Candidates(q, want), found.value);
      DequeueTouchesOne(q, found.value);
    } else {
      EnqueueTouchesOne(q, self, own, want, now);
    }
  }
}
