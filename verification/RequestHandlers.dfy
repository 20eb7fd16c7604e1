/** Chat requests sent from a public profile. */
module RequestHandlers {
  import opened Basics
  import opened SortedSets
  import opened Ledger
  import opened Database
  import opened MatchQueue
  import opened World

  const MAX_OPEN_REQUESTS := 5

  function CreateRequest(rs: Requests, id: string, requester: UserId, target: UserId, now: real): Requests {
    rs.(store := rs.store[id := Request(requester, target)],
        pending := rs.pending[id := now],
        byRequester := rs.byRequester[requester := rs.OpenIds(requester) + {id}])
  }

  /** Takes a request out of its three indexes and notes how it ended. */
  function CloseRequest(rs: Requests, id: string, ending: Ending): Requests {
    var rs1 := rs.(store := rs.store - {id}, pending := rs.pending - {id});
    match Get(rs.store, id)
    case None => rs1
    case Some(q) =>
      rs1.(byRequester := rs.byRequester[q.requester := rs.OpenIds(q.requester) - {id}], log := rs.log + [Ended(q.requester, ending)])
  }

  /** `reachable` is the verdict of the block, existence and silent-mode checks on the target. */
  function SendRequest(w: World, id: string, requester: UserId, target: UserId, reachable: bool, now: real): World {
    if || target == requester
       || |w.requests.OpenIds(requester)| >= MAX_OPEN_REQUESTS
       || w.pairs.Partner(requester).Some? || OnRoomSide(w, requester) || w.pairs.Partner(target).Some?
       || !reachable
    then w else
      match Deduct(w.db, requester, CHAT_COST, RequestCost)
      case None => w
      case Some(db) => w.(db := db, requests := CreateRequest(w.requests, id, requester, target, now))
  }

  function AcceptRequest(w: World, id: string, acceptor: UserId): World {
    match Get(w.requests.store, id)
    case None => w
    case Some(q) =>
      var r := q.requester;
      if OnChatSide(w, acceptor) || OnChatSide(w, r) || OnRoomSide(w, acceptor) || OnRoomSide(w, r)
      then w.(requests := CloseRequest(w.requests, id, Cancelled))
      else w.(requests := CloseRequest(w.requests, id, Accepted),
              queue := Dequeue(Dequeue(w.queue, acceptor), r),
              pairs := SetPartner(w.pairs, acceptor, r))
  }

  function RejectRequest(w: World, id: string): World {
    var w1 := w.(requests := CloseRequest(w.requests, id, Rejected));
    match Get(w.requests.store, id)
    case None => w1
    case Some(q) => RefundWorld(w1, q.requester, CHAT_COST, RequestRejectRefund)
  }

  /** Closes the listed requests; the requesters of those still open, in order. */
  function PopEach(rs: Requests, ids: seq<string>): (Requests, seq<UserId>)
    decreases |ids|
  {
    if ids == [] then (rs, []) else
      var q := Get(rs.store, ids[0]);
      var (rs', rest) := PopEach(CloseRequest(rs, ids[0], Expired), ids[1..]);
      (rs', (if q.Some? then [q.value.requester] else []) + rest)
  }

  function RefundEach(db: Db, us: seq<UserId>): Db
    decreases |us|
  {
    if us == [] then db else RefundEach(Refund(db, us[0], CHAT_COST, RequestTimeoutRefund), us[1..])
  }

  /** Ids of the requests created no later than `cutoff`, oldest first. */
  function ExpiredIds(rs: Requests, cutoff: real): seq<string> {
    Range(map id | id in rs.pending && rs.pending[id] <= cutoff :: rs.pending[id])
  }

  /** First all expired requests are closed, then their requesters are paid back. */
  function ExpireRequests(w: World, cutoff: real): World {
    var (rs, us) := PopEach(w.requests, ExpiredIds(w.requests, cutoff));
    w.(requests := rs, db := RefundEach(w.db, us))
  }

  /** One expired request closed and paid back. */
  function ExpireOne(w: World, id: string): World {
    var w1 := w.(requests := CloseRequest(w.requests, id, Expired));
    match Get(w.requests.store, id)
    case None => w1
    case Some(q) => RefundWorld(w1, q.requester, CHAT_COST, RequestTimeoutRefund)
  }

  function ExpireEach(w: World, ids: seq<string>): World
    decreases |ids|
  {
    if ids == [] then w else ExpireEach(ExpireOne(w, ids[0]), ids[1..])
  }

  /** The two phases of the job amount to expiring the requests one after the other. */
  lemma {:induction false} ExpiryOneByOne(w: World, ids: seq<string>)
    ensures var (rs, us) := PopEach(w.requests, ids);
            w.(requests := rs, db := RefundEach(w.db, us)) == ExpireEach(w, ids)
    decreases |ids|
  {
    if ids != [] {
      ExpiryOneByOne(ExpireOne(w, ids[0]), ids[1..]);
      var q := Get(w.requests.store, ids[0]);
      var rest := PopEach(CloseRequest(w.requests, ids[0], Expired), ids[1..]).1;
      if q.Some? {
        assert ([q.value.requester] + rest)[1..] == rest;
      } else {
        assert [] + rest == rest;
      }
    }
  }
}
