/** The Redis keys of 1:1 chats, room seekers, the mirror and chat requests, changed in place. */
module RedisKeys {
  import opened Basics
  import opened SortedSets
  import opened World
  import State = World
  import opened RoomHandlers
  import opened RequestHandlers

  class ChatKeys {
    var partner: map<UserId, UserId>
    var payer: set<UserId>
    var msgs: map<set<UserId>, nat>

    function Model(): Pairs reads this {
      Pairs(partner, payer, msgs)
    }

    constructor ()
      ensures Model() == Pairs(map[], {}, map[])
    {
      partner, payer, msgs := map[], {}, map[];
    }

    method SetPartner(a: UserId, b: UserId)
      modifies this
      ensures Model() == State.SetPartner(old(Model()), a, b)
    {
      partner := partner[a := b];
      partner := partner[b := a];
    }

    method ClearPartner(u: UserId) returns (former: Option<UserId>)
      modifies this
      ensures Model() == State.ClearPartner(old(Model()), u) && former == old(Model()).Partner(u)
    {
      former := Get(partner, u);
      partner := partner - {u};
      if former.Some? {
        partner := partner - {former.value};
        payer := payer - {u};
        payer := payer - {former.value};
        msgs := msgs - {{u, former.value}};
      }
    }

    method SetPayer(u: UserId)
      modifies this
      ensures Model() == old(Model()).(payer := old(payer) + {u})
    {
      payer := payer + {u};
    }

    method ClearPayer(u: UserId)
      modifies this
      ensures Model() == old(Model()).(payer := old(payer) - {u})
    {
      payer := payer - {u};
    }

    method CountMessage(u: UserId, v: UserId)
      modifies this
      ensures Model() == old(Model()).(msgs := old(msgs)[{u, v} := old(Model()).MsgCount(u, v) + 1])
    {
      var n := if {u, v} in msgs then msgs[{u, v}] else 0;
      msgs := msgs[{u, v} := n + 1];
    }
  }

  class SeekerKeys {
    var male: ZSet
    var female: ZSet
    var any: ZSet
    var jobs: map<UserId, multiset<Pref>>

    function Model(): Seekers reads this {
      Seekers(male, female, any, jobs)
    }

    constructor ()
      ensures Model() == Seekers(map[], map[], map[], map[])
    {
      male, female, any, jobs := map[], map[], map[], map[];
    }

    /** Entering the queue, with the timeout job that goes with it. */
    method Enqueue(u: UserId, p: Pref, now: real)
      modifies this
      ensures Model() == EnqueueSeeker(old(Model()), u, p, now)
    {
      match p {
        case MalePref => male := male[u := now];
        case FemalePref => female := female[u := now];
        case AnyPref => any := any[u := now];
      }
      jobs := jobs[u := (if u in jobs then jobs[u] else multiset{}) + multiset{p}];
    }

    method Dequeue(u: UserId, p: Pref)
      modifies this
      ensures Model() == DequeueSeeker(old(Model()), u, p)
    {
      match p {
        case MalePref => male := male - {u};
        case FemalePref => female := female - {u};
        case AnyPref => any := any - {u};
      }
    }

    method CancelJobs(u: UserId)
      modifies this
      ensures Model() == State.CancelJobs(old(Model()), u)
    {
      jobs := jobs - {u};
    }

    /** A pending job is taken from the schedule to run. */
    method TakeJob(u: UserId, p: Pref)
      modifies this
      ensures Model() == old(Model()).(jobs := old(jobs)[u := old(Model()).Jobs(u) - multiset{p}])
    {
      jobs := jobs[u := (if u in jobs then jobs[u] else multiset{}) - multiset{p}];
    }

    method ForgetJobs()
      modifies this
      ensures Model() == old(Model()).(jobs := map[])
    {
      jobs := map[];
    }

    /** The oldest head of the listed buckets, found in one pass over them. */
    method PeekOldest(buckets: seq<Pref>) returns (best: Option<(UserId, Pref)>)
      ensures best == RoomHandlers.PeekOldest(Model(), buckets)
    {
      best := None;
      ghost var s := Model();
      for i := 0 to |buckets|
        invariant best == RoomHandlers.PeekOldest(s, buckets[..i])
      {
        assert buckets[..i + 1][..i] == buckets[..i];
        var z := Model().Bucket(buckets[i]);
        if z != map[] {
          var u := First(z);
          if best.None? || z[u] < Model().Bucket(best.value.1)[best.value.0] { best := Some((u, buckets[i])); }
        }
      }
      assert buckets[..|buckets|] == buckets;
    }

    method PurgeStale(cutoff: real)
      modifies this
      ensures Model() == PurgeSeekers(old(Model()), cutoff)
    {
      male := DropUpTo(male, cutoff);
      female := DropUpTo(female, cutoff);
      any := DropUpTo(any, cutoff);
    }
  }

  class MirrorKeys {
    var room: map<UserId, RoomId>
    var suppressed: set<UserId>

    function Model(): Mirror reads this {
      Mirror(room, suppressed)
    }

    constructor ()
      ensures Model() == Mirror(map[], {})
    {
      room, suppressed := map[], {};
    }

    method SetActiveRoom(u: UserId, r: RoomId)
      modifies this
      ensures Model() == old(Model()).(room := old(room)[u := r])
    {
      room := room[u := r];
    }

    method ClearActiveRoom(u: UserId)
      modifies this
      ensures Model() == ClearMirror(old(Model()), {u})
    {
      room := room - {u};
      suppressed := suppressed - {u};
    }

    /** The loop over the members of a room that is gone. */
    method ClearEach(us: set<UserId>)
      modifies this
      ensures Model() == ClearMirror(old(Model()), us)
    {
      ghost var m := Model();
      var todo := us;
      while todo != {}
        invariant todo <= us && Model() == ClearMirror(m, us - todo)
        decreases todo
      {
        var u :| u in todo;
        ClearActiveRoom(u);
        assert us - (todo - {u}) == (us - todo) + {u};
        todo := todo - {u};
      }
    }

    /** The loop over the other members of a room being closed or reopened. */
    method SwitchEach(us: set<UserId>, on: bool)
      modifies this
      ensures Model() == old(Model()).(suppressed := if on then old(suppressed) - us else old(suppressed) + us)
    {
      ghost var m := Model();
      var todo := us;
      while todo != {}
        invariant todo <= us && room == m.room
        invariant suppressed == if on then m.suppressed - (us - todo) else m.suppressed + (us - todo)
        decreases todo
      {
        var u :| u in todo;
        suppressed := if on then suppressed - {u} else suppressed + {u};
        todo := todo - {u};
      }
    }
  }

  class RequestKeys {
    var store: map<string, Request>
    var pending: ZSet
    var byRequester: map<UserId, set<string>>
    ghost var log: seq<Ended>

    ghost function Model(): Requests reads this {
      Requests(store, pending, byRequester, log)
    }

    constructor ()
      ensures Model() == Requests(map[], map[], map[], [])
    {
      store, pending, byRequester, log := map[], map[], map[], [];
    }

    function CountActive(u: UserId): (n: nat)
      reads this
      ensures n == |Model().OpenIds(u)|
    {
      if u in byRequester then |byRequester[u]| else 0
    }

    method Create(id: string, requester: UserId, target: UserId, now: real)
      modifies this
      ensures Model() == CreateRequest(old(Model()), id, requester, target, now)
    {
      store := store[id := Request(requester, target)];
      pending := pending[id := now];
      var ids := if requester in byRequester then byRequester[requester] else {};
      byRequester := byRequester[requester := ids + {id}];
    }

    method Clear(id: string, ghost ending: Ending)
      modifies this
      ensures Model() == CloseRequest(old(Model()), id, ending)
    {
      var data := Get(store, id);
      store := store - {id};
      pending := pending - {id};
      if data.Some? {
        var u := data.value.requester;
        var ids := if u in byRequester then byRequester[u] else {};
        byRequester := byRequester[u := ids - {id}];
        log := log + [Ended(u, ending)];
      }
    }

    /** The requests created no later than `cutoff` are closed one by one; those that were
        still open are returned. */
    method PopExpired(cutoff: real) returns (requesters: seq<UserId>)
      modifies this
      ensures (Model(), requesters) == PopEach(old(Model()), ExpiredIds(old(Model()), cutoff))
    {
      hide PopEach, CloseRequest;
      ghost var rs := Model();
      var expired := map id | id in pending && pending[id] <= cutoff :: pending[id];
      var ids := Range(expired);
      requesters := [];
      assert ids[0..] == ids;
      AheadOfNobody(PopEach(rs, ids));
      for i := 0 to |ids|
        invariant PopEach(rs, ids) == Ahead(requesters, PopEach(Model(), ids[i..]))
      {
        var data := Get(store, ids[i]);
        PopNext(Model(), ids[i..], requesters);
        assert ids[i..][1..] == ids[i + 1..];
        Clear(ids[i], Expired);
        assert requesters + [] == requesters;
        if data.Some? { requesters := requesters + [data.value.requester]; }
      }
      PopNone(Model(), ids[|ids|..], requesters);
    }
  }

  function Ahead(us: seq<UserId>, rest: (Requests, seq<UserId>)): (Requests, seq<UserId>) {
    (rest.0, us + rest.1)
  }

  lemma AheadTwice(us: seq<UserId>, vs: seq<UserId>, rest: (Requests, seq<UserId>))
    ensures Ahead(us, Ahead(vs, rest)) == Ahead(us + vs, rest)
  {
    assert us + (vs + rest.1) == us + vs + rest.1;
  }

  /** The requester of an open request. */
  function RequesterOf(rs: Requests, id: string): seq<UserId> {
    if id in rs.store then [rs.store[id].requester] else []
  }

  lemma PopUnfold(rs: Requests, ids: seq<string>)
    requires ids != []
    ensures PopEach(rs, ids) == Ahead(RequesterOf(rs, ids[0]), PopEach(CloseRequest(rs, ids[0], Expired), ids[1..]))
  {
    hide CloseRequest;
  }

  lemma PopNext(rs: Requests, ids: seq<string>, us: seq<UserId>)
    requires ids != []
    ensures Ahead(us, PopEach(rs, ids)) == Ahead(us + RequesterOf(rs, ids[0]), PopEach(CloseRequest(rs, ids[0], Expired), ids[1..]))
  {
    hide PopEach, CloseRequest, Ahead;
    PopUnfold(rs, ids);
    AheadTwice(us, RequesterOf(rs, ids[0]), PopEach(CloseRequest(rs, ids[0], Expired), ids[1..]));
  }

  lemma PopNone(rs: Requests, ids: seq<string>, us: seq<UserId>)
    requires ids == []
    ensures Ahead(us, PopEach(rs, ids)) == (rs, us)
  {
    assert us + [] == us;
  }

  lemma AheadOfNobody(rest: (Requests, seq<UserId>))
    ensures Ahead([], rest) == rest
  {
    assert [] + rest.1 == rest.1;
  }
}
