/** The whole state the handlers work on, and the small reads and writes they share. */
module World {
  import opened Basics
  import opened SortedSets
  import opened Ledger
  import opened Database
  import opened MatchQueue

  /** Partner keys, payer flags and message counters of 1:1 chats. A counter's key is
      the unordered pair of its two users. */
  datatype Pairs = Pairs(partner: map<UserId, UserId>, payer: set<UserId>, msgs: map<set<UserId>, nat>)
  {
    function Partner(u: UserId): Option<UserId> {
      Get(partner, u)
    }

    function MsgCount(u: UserId, v: UserId): nat {
      if {u, v} in msgs then msgs[{u, v}] else 0
    }
  }

  /** Room seekers by the filter they search with, and the timeout jobs pending for them. */
  datatype Seekers = Seekers(male: ZSet, female: ZSet, any: ZSet, jobs: map<UserId, multiset<Pref>>)
  {
    function Bucket(p: Pref): ZSet {
      match p
      case MalePref => male
      case FemalePref => female
      case AnyPref => any
    }

    function WithBucket(p: Pref, z: ZSet): Seekers {
      match p
      case MalePref => this.(male := z)
      case FemalePref => this.(female := z)
      case AnyPref => this.(any := z)
    }

    /** The filter under which a user waits, looked up bucket by bucket. */
    function Filter(u: UserId): Option<Pref> {
      if u in male then Some(MalePref) else if u in female then Some(FemalePref) else if u in any then Some(AnyPref) else None
    }

    function Jobs(u: UserId): multiset<Pref> {
      if u in jobs then jobs[u] else multiset{}
    }
  }

  /** The cached active room of each user, and the users whose room keyboard is switched off. */
  datatype Mirror = Mirror(room: map<UserId, RoomId>, suppressed: set<UserId>)

  datatype Request = Request(requester: UserId, target: UserId)

  datatype Ending = Accepted | Cancelled | Rejected | Expired

  datatype Ended = Ended(requester: UserId, ending: Ending)

  /** Chat requests under their three indexes. `log` records how each request ended; it
      is history for the proofs and is never read by a handler. */
  datatype Requests = Requests(store: map<string, Request>, pending: ZSet, byRequester: map<UserId, set<string>>, log: seq<Ended>)
  {
    function OpenIds(u: UserId): set<string> {
      if u in byRequester then byRequester[u] else {}
    }
  }

  datatype World = World(db: Db, queue: Queue, pairs: Pairs, seekers: Seekers, mirror: Mirror, requests: Requests)

  // ---------------------------------------------------------------- guards

  /** The user has an active room or waits for one: no 1:1 chat may start. */
  predicate OnRoomSide(w: World, u: UserId) {
    ActiveRoom(w.db, u).Some? || w.seekers.Filter(u).Some?
  }

  predicate OnChatSide(w: World, u: UserId) {
    w.pairs.Partner(u).Some? || w.queue.Waiting(u)
  }

  /** The check injected into the create and join transactions. */
  function RedisConflict(w: World, u: UserId): Option<Error> {
    if w.pairs.Partner(u).Some? then Some(In1to1)
    else if w.queue.Waiting(u) then Some(InQueue)
    else None
  }

  predicate CannotStartRoomFlow(w: World, u: UserId) {
    OnChatSide(w, u) || w.seekers.Filter(u).Some?
  }

  // ---------------------------------------------------------------- shared writes

  function SetPartner(p: Pairs, a: UserId, b: UserId): Pairs {
    p.(partner := p.partner[a := b][b := a])
  }

  function ClearPartner(p: Pairs, u: UserId): Pairs {
    match p.Partner(u)
    case None => p
    case Some(v) => Pairs(p.partner - {u, v}, p.payer - {u, v}, p.msgs - {{u, v}})
  }

  function ClearMirror(m: Mirror, us: set<UserId>): Mirror {
    Mirror(m.room - us, m.suppressed - us)
  }

  function CancelJobs(s: Seekers, u: UserId): Seekers {
    s.(jobs := s.jobs - {u})
  }

  function DequeueSeeker(s: Seekers, u: UserId, p: Pref): Seekers {
    s.WithBucket(p, s.Bucket(p) - {u})
  }

  function RefundWorld(w: World, u: UserId, amount: nat, reason: Reason): World {
    w.(db := Refund(w.db, u, amount, reason))
  }
}
