/** The 1:1 waiting queue and the atomic match-or-enqueue script. */
module MatchQueue {
  import opened Basics
  import opened SortedSets

  /** One bucket per gender of the waiting user, and the wish each user has stored.
      A wish outlives its owner's stay in the queue when stale entries are purged. */
  datatype Queue = Queue(male: ZSet, female: ZSet, desired: map<UserId, Gender>)
  {
    function Bucket(g: Gender): ZSet {
      if g == Male then male else female
    }

    predicate Waiting(u: UserId) {
      u in male || u in female
    }
  }

  /** A caller whose own gender is `own` suits candidate `c`. */
  predicate Accepts(q: Queue, c: UserId, own: Gender) {
    c in q.desired ==> q.desired[c] == own
  }

  predicate Suits(q: Queue, self: UserId, own: Gender, c: UserId) {
    c != self && Accepts(q, c, own)
  }

  function SearchedGenders(want: Option<Gender>): seq<Gender> {
    match want
    case Some(g) => [g]
    case None => [Male, Female]
  }

  predicate Searched(want: Option<Gender>, g: Gender) {
    want.Some? ==> want.value == g
  }

  function Members(q: Queue, genders: seq<Gender>): (s: seq<UserId>)
    ensures forall c :: c in s <==> exists g | g in genders :: c in q.Bucket(g)
  {
    if genders == [] then [] else
      assert genders == [genders[0]] + genders[1..];
      Range(q.Bucket(genders[0])) + Members(q, genders[1..])
  }

  /** Everybody a caller with this wish looks at, in the order of the script. */
  function Candidates(q: Queue, want: Option<Gender>): seq<UserId> {
    Members(q, SearchedGenders(want))
  }

  lemma CandidateMembership(q: Queue, want: Option<Gender>, c: UserId)
    ensures c in Candidates(q, want) <==> exists g :: Searched(want, g) && c in q.Bucket(g)
  {
    forall g ensures g in SearchedGenders(want) <==> Searched(want, g) {
      assert g == Male || g == Female;
      assert want.None? ==> SearchedGenders(want)[0] == Male && SearchedGenders(want)[1] == Female;
    }
  }

  /** `c` is the earliest candidate that suits the caller. */
  ghost predicate IsFirstMatch(q: Queue, self: UserId, own: Gender, s: seq<UserId>, c: UserId) {
    exists i | 0 <= i < |s| :: s[i] == c && Suits(q, self, own, c) && forall j | 0 <= j < i :: !Suits(q, self, own, s[j])
  }

  function FirstMatch(q: Queue, self: UserId, own: Gender, s: seq<UserId>): (r: Option<UserId>)
    ensures r.Some? ==> IsFirstMatch(q, self, own, s, r.value)
    ensures r.None? <==> forall c | c in s :: !Suits(q, self, own, c)
  {
    if s == [] then None
    else if Suits(q, self, own, s[0]) then Some(s[0])
    else
      var r := FirstMatch(q, self, own, s[1..]);
      assert r.Some? ==> IsFirstMatch(q, self, own, s, r.value) by {
        if r.Some? {
          var i :| 0 <= i < |s[1..]| && s[1..][i] == r.value && Suits(q, self, own, r.value)
            && forall j | 0 <= j < i :: !Suits(q, self, own, s[1..][j]);
          assert s[i + 1] == r.value;
          forall j | 0 <= j < i + 1 ensures !Suits(q, self, own, s[j]) {
            if j > 0 { assert s[j] == s[1..][j - 1]; }
          }
        }
      }
      assert s == [s[0]] + s[1..];
      r
  }

  /** A candidate list is searched piece by piece. */
  lemma {:induction false} FirstMatchAppend(q: Queue, self: UserId, own: Gender, a: seq<UserId>, b: seq<UserId>)
    ensures FirstMatch(q, self, own, a + b)
            == if FirstMatch(q, self, own, a).Some? then FirstMatch(q, self, own, a) else FirstMatch(q, self, own, b)
  {
    if a == [] {
      assert a + b == b;
    } else {
      assert (a + b)[1..] == a[1..] + b;
      FirstMatchAppend(q, self, own, a[1..], b);
    }
  }

  lemma NobodyMatches(q: Queue, self: UserId, own: Gender)
    ensures FirstMatch(q, self, own, []) == None
  {
  }

  function Dequeue(q: Queue, u: UserId): Queue {
    Queue(q.male - {u}, q.female - {u}, q.desired - {u})
  }

  function Enqueue(q: Queue, u: UserId, own: Gender, want: Option<Gender>, now: real): Queue {
    var d := if want.Some? then q.desired[u := want.value] else q.desired - {u};
    if own == Male then Queue(q.male[u := now], q.female, d) else Queue(q.male, q.female[u := now], d)
  }

  function MatchOrEnqueue(q: Queue, self: UserId, own: Gender, want: Option<Gender>, now: real): (Queue, Option<UserId>) {
    var found := FirstMatch(q, self, own, Candidates(q, want));
    if found.Some? then (Dequeue(q, found.value), found) else (Enqueue(q, self, own, want, now), None)
  }

  function PurgeStale(q: Queue, cutoff: real): Queue {
    q.(male := DropUpTo(q.male, cutoff), female := DropUpTo(q.female, cutoff))
  }

  /** Two waiting entries whose users accept each other's gender. */
  ghost predicate Mutual(q: Queue, gu: Gender, u: UserId, gv: Gender, v: UserId) {
    u in q.Bucket(gu) && v in q.Bucket(gv) && u != v && Accepts(q, u, gv) && Accepts(q, v, gu)
  }

  ghost predicate NoMissedMatch(q: Queue) {
    forall gu, u, gv, v :: !Mutual(q, gu, u, gv, v)
  }

  lemma RemovalKeepsNoMissedMatch(q: Queue, q': Queue)
    requires NoMissedMatch(q)
    requires q'.male.Keys <= q.male.Keys && q'.female.Keys <= q.female.Keys
    requires forall u | q'.Waiting(u) :: Get(q'.desired, u) == Get(q.desired, u)
    ensures NoMissedMatch(q')
  {
    forall gu, u, gv, v ensures !Mutual(q', gu, u, gv, v) {
      assert !Mutual(q, gu, u, gv, v);
      if q'.Waiting(u) && q'.Waiting(v) {
        assert Get(q'.desired, u) == Get(q.desired, u) && Get(q'.desired, v) == Get(q.desired, v);
      }
    }
  }

  lemma NobodySuits(q: Queue, self: UserId, own: Gender, want: Option<Gender>, g: Gender, c: UserId)
    requires FirstMatch(q, self, own, Candidates(q, want)).None?
    ensures Searched(want, g) && c in q.Bucket(g) ==> !Suits(q, self, own, c)
  {
    CandidateMembership(q, want, c);
  }

  /** The pair a caller forms with somebody it has just failed to match. */
  lemma EnqueueAddsNoMutual(q: Queue, self: UserId, own: Gender, want: Option<Gender>, now: real, g: Gender, v: UserId)
    requires FirstMatch(q, self, own, Candidates(q, want)).None?
    ensures !Mutual(Enqueue(q, self, own, want, now), own, self, g, v)
  {
    hide FirstMatch, Candidates;
    NobodySuits(q, self, own, want, g, v);
  }

  /** A failed search followed by enqueueing keeps the queue free of missed matches,
      unless the caller still sits in the bucket of the other gender. */
  lemma EnqueueKeepsNoMissedMatch(q: Queue, self: UserId, own: Gender, want: Option<Gender>, now: real)
    requires NoMissedMatch(q) && self !in q.Bucket(own.Other())
    requires FirstMatch(q, self, own, Candidates(q, want)).None?
    ensures NoMissedMatch(Enqueue(q, self, own, want, now))
  {
    hide FirstMatch, Candidates;
    var q' := Enqueue(q, self, own, want, now);
    forall gu, u, gv, v ensures !Mutual(q', gu, u, gv, v) {
      assert !Mutual(q, gu, u, gv, v);
      EnqueueAddsNoMutual(q, self, own, want, now, gv, v);
      EnqueueAddsNoMutual(q, self, own, want, now, gu, u);
      assert v == self && Mutual(q', gu, u, gv, v) ==> gv == own;
    }
  }

  lemma MatchOrEnqueueKeepsNoMissedMatch(q: Queue, self: UserId, own: Gender, want: Option<Gender>, now: real)
    requires NoMissedMatch(q) && self !in q.Bucket(own.Other())
    ensures NoMissedMatch(MatchOrEnqueue(q, self, own, want, now).0)
  {
    var found := FirstMatch(q, self, own, Candidates(q, want));
    if found.Some? {
      RemovalKeepsNoMissedMatch(q, Dequeue(q, found.value));
    } else {
      EnqueueKeepsNoMissedMatch(q, self, own, want, now);
    }
  }

  /** Somebody the caller now searches among wishes for the caller's former gender. */
  ghost predicate WishesFormerGender(q: Queue, self: UserId, own: Gender, want: Option<Gender>, g: Gender, c: UserId) {
    Searched(want, g) && c in q.Bucket(g) && c != self && Get(q.desired, c) == Some(own.Other())
  }

  /** The pair formed by the entry a caller left in the bucket of its former gender. */
  lemma StaleEntryMutual(q: Queue, self: UserId, own: Gender, want: Option<Gender>, now: real, g: Gender, c: UserId)
    requires FirstMatch(q, self, own, Candidates(q, want)).None? && self in q.Bucket(own.Other())
    ensures Mutual(Enqueue(q, self, own, want, now), own.Other(), self, g, c)
            <==> WishesFormerGender(q, self, own, want, g, c)
  {
    hide FirstMatch, Candidates;
    NobodySuits(q, self, own, want, g, c);
  }

  lemma OnlyStaleEntryMutual(q: Queue, self: UserId, own: Gender, want: Option<Gender>, now: real,
                             gu: Gender, u: UserId, gv: Gender, v: UserId)
    requires NoMissedMatch(q) && FirstMatch(q, self, own, Candidates(q, want)).None?
    requires self in q.Bucket(own.Other())
    requires forall g, c :: !WishesFormerGender(q, self, own, want, g, c)
    ensures !Mutual(Enqueue(q, self, own, want, now), gu, u, gv, v)
  {
    if u == self {
      EnqueueAddsNoMutual(q, self, own, want, now, gv, v);
      StaleEntryMutual(q, self, own, want, now, gv, v);
    } else if v == self {
      EnqueueAddsNoMutual(q, self, own, want, now, gu, u);
      StaleEntryMutual(q, self, own, want, now, gu, u);
    } else {
      assert !Mutual(q, gu, u, gv, v);
    }
  }

  /** The exact condition. A caller still waiting under its former gender that finds
      nobody leaves a missed match behind just when somebody it searches among wishes
      for that former gender. */
  lemma StaleEntryBreaksNoMissedMatch(q: Queue, self: UserId, own: Gender, want: Option<Gender>, now: real)
    requires NoMissedMatch(q)
    requires FirstMatch(q, self, own, Candidates(q, want)).None?
    ensures NoMissedMatch(Enqueue(q, self, own, want, now)) <==>
            !(self in q.Bucket(own.Other()) && exists g, c :: WishesFormerGender(q, self, own, want, g, c))
  {
    if self !in q.Bucket(own.Other()) {
      EnqueueKeepsNoMissedMatch(q, self, own, want, now);
    } else if g, c :| WishesFormerGender(q, self, own, want, g, c) {
      StaleEntryMutual(q, self, own, want, now, g, c);
    } else {
      forall gu, u, gv, v ensures !Mutual(Enqueue(q, self, own, want, now), gu, u, gv, v) {
        OnlyStaleEntryMutual(q, self, own, want, now, gu, u, gv, v);
      }
    }
  }

  lemma AtMostOneWithoutWish(q: Queue, u: UserId, v: UserId)
    requires NoMissedMatch(q)
    requires q.Waiting(u) && q.Waiting(v) && u !in q.desired && v !in q.desired
    ensures u == v
  {
    var gu := if u in q.male then Male else Female;
    var gv := if v in q.male then Male else Female;
    assert !Mutual(q, gu, u, gv, v);
  }

  datatype QueueEvent =
    | Match(self: UserId, own: Gender, want: Option<Gender>, now: real)
    | Leave(u: UserId)
    | Purge(cutoff: real)

  /** Nobody searches while still waiting under another gender. */
  predicate FreshSearch(q: Queue, e: QueueEvent) {
    e.Match? ==> e.self !in q.Bucket(e.own.Other())
  }

  function QueueStep(q: Queue, e: QueueEvent): Queue {
    match e
    case Match(self, own, want, now) => MatchOrEnqueue(q, self, own, want, now).0
    case Leave(u) => Dequeue(q, u)
    case Purge(cutoff) => PurgeStale(q, cutoff)
  }

  ghost predicate FreshSearches(q: Queue, run: seq<QueueEvent>)
    decreases |run|
  {
    run != [] ==> FreshSearch(q, run[0]) && FreshSearches(QueueStep(q, run[0]), run[1..])
  }

  function QueueRun(q: Queue, run: seq<QueueEvent>): Queue
    decreases |run|
  {
    if run == [] then q else QueueRun(QueueStep(q, run[0]), run[1..])
  }

  /** Holds of the empty queue, hence of every queue a run of allowed events reaches. */
  lemma {:induction false} NoMissedMatchInEveryRun(q: Queue, run: seq<QueueEvent>)
    requires NoMissedMatch(q) && FreshSearches(q, run)
    ensures NoMissedMatch(QueueRun(q, run))
    decreases |run|
  {
    if run != [] {
      var q' := QueueStep(q, run[0]);
      match run[0] {
        case Match(self, own, want, now) => MatchOrEnqueueKeepsNoMissedMatch(q, self, own, want, now);
        case Leave(u) => RemovalKeepsNoMissedMatch(q, q');
        case Purge(cutoff) => RemovalKeepsNoMissedMatch(q, q');
      }
      NoMissedMatchInEveryRun(q', run[1..]);
    }
  }
}
