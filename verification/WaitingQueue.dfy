/** The Redis keys of the 1:1 queue, changed in place. */
module WaitingQueueKeys {
  import opened Basics
  import opened SortedSets
  import opened MatchQueue

  class WaitingQueue {
    var male: ZSet
    var female: ZSet
    var desired: map<UserId, Gender>

    function Model(): Queue reads this {
      Queue(male, female, desired)
    }

    constructor ()
      ensures Model() == Queue(map[], map[], map[])
    {
      male, female, desired := map[], map[], map[];
    }

    method Dequeue(u: UserId) returns (removed: bool)
      modifies this
      ensures Model() == MatchQueue.Dequeue(old(Model()), u)
      ensures removed == old(Model().Waiting(u))
    {
      var total := 0;
      if u in male { total := total + 1; }
      male := male - {u};
      if u in female { total := total + 1; }
      female := female - {u};
      desired := desired - {u};
      removed := total > 0;
    }

    method PurgeStale(cutoff: real)
      modifies this
      ensures Model() == MatchQueue.PurgeStale(old(Model()), cutoff)
    {
      male := DropUpTo(male, cutoff);
      female := DropUpTo(female, cutoff);
    }

    /** The inner loop of the script, over the members of one bucket. */
    method FindAmong(members: seq<UserId>, self: UserId, own: Gender) returns (found: Option<UserId>)
      ensures found == FirstMatch(Model(), self, own, members)
    {
      ghost var q := Model();
      for i := 0 to |members|
        invariant FirstMatch(q, self, own, members) == FirstMatch(q, self, own, members[i..])
      {
        var c := members[i];
        if c != self && (c !in desired || desired[c] == own) {
          return Some(c);
        }
        assert members[i..][1..] == members[i + 1..];
      }
      found := None;
    }

    /** The outer loop, over the searched buckets. */
    method FindMatch(self: UserId, own: Gender, want: Option<Gender>) returns (found: Option<UserId>)
      ensures found == FirstMatch(Model(), self, own, Candidates(Model(), want))
    {
      hide FirstMatch;
      ghost var q := Model();
      var genders := SearchedGenders(want);
      for n := 0 to |genders|
        invariant FirstMatch(q, self, own, Candidates(q, want)) == FirstMatch(q, self, own, Members(q, genders[n..]))
      {
        var members := Range(if genders[n] == Male then male else female);
        assert genders[n..][1..] == genders[n + 1..];
        FirstMatchAppend(q, self, own, members, Members(q, genders[n + 1..]));
        found := FindAmong(members, self, own);
        if found.Some? { return; }
      }
      NobodyMatches(q, self, own);
      found := None;
    }

    method MatchOrEnqueue(self: UserId, own: Gender, want: Option<Gender>, now: real) returns (found: Option<UserId>)
      modifies this
      ensures (Model(), found) == MatchQueue.MatchOrEnqueue(old(Model()), self, own, want, now)
    {
      found := FindMatch(self, own, want);
      if found.Some? {
        male := male - {found.value};
        female := female - {found.value};
        desired := desired - {found.value};
        return;
      }
      if own == Male { male := male[self := now]; } else { female := female[self := now]; }
      if want.Some? { desired := desired[self := want.value]; } else { desired := desired - {self}; }
    }
  }
}
