/** Handlers of chat rooms: the fill loop, searching, creating, leaving, moderation, bans. */
module RoomHandlers {
  import opened Basics
  import opened SortedSets
  import opened Ledger
  import opened Database
  import opened World

  // ---------------------------------------------------------------- matching seekers with rooms

  /** The buckets a room accepts seekers from. */
  function CompatibleBuckets(room: Pref): seq<Pref> {
    if room == AnyPref then [MalePref, FemalePref, AnyPref] else [room, AnyPref]
  }

  /** A seeker's filter and a room's preference agree unless they name different genders. */
  predicate PrefsAgree(filter: Pref, room: Pref) {
    filter == AnyPref || room == AnyPref || filter == room
  }

  /** The oldest head of the listed buckets; on a tie the bucket listed first. */
  function PeekOldest(s: Seekers, buckets: seq<Pref>): (r: Option<(UserId, Pref)>)
    ensures r.Some? ==> r.value.1 in buckets && IsFirst(s.Bucket(r.value.1), r.value.0)
    ensures r.Some? ==> forall p, u | p in buckets && u in s.Bucket(p) :: s.Bucket(r.value.1)[r.value.0] <= s.Bucket(p)[u]
    ensures r.None? ==> forall p | p in buckets :: s.Bucket(p) == map[]
  {
    if buckets == [] then None else
      var n := |buckets| - 1;
      var p := buckets[n];
      var best := PeekOldest(s, buckets[..n]);
      assert buckets == buckets[..n] + [p];
      if s.Bucket(p) == map[] then best else
        var u := First(s.Bucket(p));
        if best.None? || s.Bucket(p)[u] < s.Bucket(best.value.1)[best.value.0] then Some((u, p)) else best
  }

  function QueueSize(s: Seekers): nat {
    |s.male| + |s.female| + |s.any|
  }

  lemma DequeueShrinks(s: Seekers, u: UserId, p: Pref)
    requires u in s.Bucket(p)
    ensures QueueSize(DequeueSeeker(s, u, p)) < QueueSize(s)
  {
    RemoveKeySize(s.Bucket(p), u);
  }

  predicate RoomAtFault(e: Error) {
    e == RoomFull || e == RoomNotOpen || e == NotFound
  }

  /** One candidate taken off the queue, with the outcome of its join. */
  function Settle(w: World, r: RoomId, u: UserId, p: Pref, db: Db, res: Result<RoomId>): World {
    var w1 := w.(db := db, seekers := CancelJobs(DequeueSeeker(w.seekers, u, p), u));
    match res
    case Ok(_) => w1.(mirror := w.mirror.(room := w.mirror.room[u := r]))
    case Err(e) => if e == In1to1 || e == InQueue then RefundWorld(w1, u, ROOM_SEARCH_COST, RoomConflictRefund) else w1
  }

  function FillLoop(w: World, r: RoomId, buckets: seq<Pref>): World
    decreases QueueSize(w.seekers)
  {
    match PeekOldest(w.seekers, buckets)
    case None => w
    case Some((u, p)) =>
      var (db, res) := JoinRoom(w.db, u, r, RedisConflict(w, u));
      if res.Err? && RoomAtFault(res.error) then w else
        DequeueShrinks(w.seekers, u, p);
        FillLoop(Settle(w, r, u, p, db, res), r, buckets)
  }

  function Fill(w: World, r: RoomId): World {
    if !IsOpen(w.db, r) then w else FillLoop(w, r, CompatibleBuckets(w.db.rooms[r].pref))
  }

  function FillAll(w: World, rooms: seq<RoomId>): World
    decreases |rooms|
  {
    if rooms == [] then w else FillAll(Fill(w, rooms[0]), rooms[1..])
  }

  function PurgeSeekers(s: Seekers, cutoff: real): Seekers {
    s.(male := DropUpTo(s.male, cutoff), female := DropUpTo(s.female, cutoff), any := DropUpTo(s.any, cutoff))
  }

  /** `rooms` lists the open rooms with space, in the order the query returned them. */
  function Sweep(w: World, cutoff: real, rooms: seq<RoomId>): World {
    FillAll(w.(seekers := PurgeSeekers(w.seekers, cutoff)), rooms)
  }

  // ---------------------------------------------------------------- searching

  predicate Suitable(db: Db, filter: Pref, r: RoomId) {
    HasSpace(db, r) && PrefsAgree(filter, db.rooms[r].pref)
  }

  /** What the search query may return: a suitable room of least creation time, or none. */
  ghost predicate IsSearchResult(db: Db, filter: Pref, pick: Option<RoomId>) {
    match pick
    case None => forall r :: !Suitable(db, filter, r)
    case Some(r) => Suitable(db, filter, r) && forall s | Suitable(db, filter, s) :: db.rooms[r].createdAt <= db.rooms[s].createdAt
  }

  function EnqueueSeeker(s: Seekers, u: UserId, p: Pref, now: real): Seekers {
    s.WithBucket(p, s.Bucket(p)[u := now]).(jobs := s.jobs[u := s.Jobs(u) + multiset{p}])
  }

  function TryJoinRoom(w: World, u: UserId, filter: Pref, pick: Option<RoomId>, now: real): World {
    var waiting := w.(seekers := EnqueueSeeker(w.seekers, u, filter, now));
    match pick
    case None => waiting
    case Some(r) =>
      var (db, res) := JoinRoom(w.db, u, r, RedisConflict(w, u));
      match res
      case Ok(_) => w.(db := db, mirror := w.mirror.(room := w.mirror.room[u := r]))
      case Err(e) => if e == In1to1 || e == InQueue then RefundWorld(w, u, ROOM_SEARCH_COST, RoomConflictRefund) else waiting
  }

  function SearchRoom(w: World, u: UserId, filter: Pref, pick: Option<RoomId>, now: real): World {
    if CannotStartRoomFlow(w, u) then w else
      match Deduct(w.db, u, ROOM_SEARCH_COST, RoomSearch)
      case None => w
      case Some(db) => TryJoinRoom(w.(db := db), u, filter, pick, now)
  }

  function CancelSearch(w: World, u: UserId): World {
    match w.seekers.Filter(u)
    case None => w
    case Some(p) =>
      RefundWorld(w.(seekers := CancelJobs(DequeueSeeker(w.seekers, u, p), u)), u, ROOM_SEARCH_COST, RoomCancelRefund)
  }

  /** A pending job of `u` runs. It dequeues from the bucket it was scheduled for,
      whatever bucket the user waits in by now. */
  function SearchTimeout(w: World, u: UserId, p: Pref): World {
    var s := w.seekers.(jobs := w.seekers.jobs[u := w.seekers.Jobs(u) - multiset{p}]);
    if w.seekers.Filter(u).None? then w.(seekers := s)
    else RefundWorld(w.(seekers := DequeueSeeker(s, u, p)), u, ROOM_SEARCH_COST, RoomTimeoutRefund)
  }

  /** Pending jobs do not survive a restart of the bot. */
  function Restart(w: World): World {
    w.(seekers := w.seekers.(jobs := map[]))
  }

  // ---------------------------------------------------------------- membership

  predicate CanCreate(w: World, u: UserId) {
    !CannotStartRoomFlow(w, u) && ActiveRoom(w.db, u) == None && CanPay(w.db, u, ROOM_CREATE_COST)
  }

  function CreateFlow(w: World, u: UserId, pref: Pref, capacity: int, now: real): World {
    if CannotStartRoomFlow(w, u) then w else
      var (db, res) := CreateRoom(w.db, u, pref, capacity, RedisConflict(w, u), now);
      match res
      case Err(_) => w
      case Ok(r) => Fill(w.(db := db, mirror := w.mirror.(room := w.mirror.room[u := r])), r)
  }

  /** After a departure: the remaining owner of a dissolved room is freed too, otherwise
      the free place goes to the queue. */
  function AfterDeparture(w: World, u: UserId, db: Db, d: Departure): World {
    if d.autoDeleted
    then w.(db := db, mirror := ClearMirror(w.mirror, {u} + d.remaining))
    else Fill(w.(db := db, mirror := ClearMirror(w.mirror, {u})), d.room)
  }

  function LeaveFlow(w: World, u: UserId): World {
    var (db, res) := LeaveRoom(w.db, u);
    match res
    case Err(e) => if e == NotFound then w.(mirror := ClearMirror(w.mirror, {u})) else w
    case Ok(d) => AfterDeparture(w, u, db, d)
  }

  function KickFlow(w: World, owner: UserId, target: UserId): World {
    var (db, res) := KickMember(w.db, owner, target);
    match res
    case Err(_) => w
    case Ok(d) => AfterDeparture(w, target, db, d)
  }

  function DeleteFlow(w: World, u: UserId): World {
    var (db, res) := DeleteRoom(w.db, u);
    match res
    case Err(e) => if e == NotFound then w.(mirror := ClearMirror(w.mirror, {u})) else w
    case Ok(d) => w.(db := db, mirror := ClearMirror(w.mirror, d.members))
  }

  function SetOpenFlow(w: World, u: UserId, isOpen: bool): World {
    var (db, res) := SetRoomOpen(w.db, u, isOpen);
    match res
    case Err(e) => if e == NotFound then w.(mirror := ClearMirror(w.mirror, {u})) else w
    case Ok(d) =>
      var others := d.members - {u};
      w.(db := db, mirror := w.mirror.(suppressed := if isOpen then w.mirror.suppressed - others else w.mirror.suppressed + others))
  }

  /** Ends the banned user's 1:1 chat and takes the user out of the room. */
  function EnforceBan(w: World, u: UserId): World {
    var w1 := w.(pairs := ClearPartner(w.pairs, u));
    var (db, out) := RemoveBanned(w.db, u);
    if out.None? then w1 else w1.(db := db, mirror := ClearMirror(w.mirror, {u}))
  }

  // ---------------------------------------------------------------- the mirror

  /** The room handler trusts the mirror only after Postgres confirms it. */
  function HealMirror(w: World, u: UserId, r: RoomId): World {
    if r !in w.db.rooms || w.db.rooms[r].status == Deleted || !IsMember(w.db, r, u)
    then w.(mirror := ClearMirror(w.mirror, {u})) else w
  }

  /** Restores every missing mirror entry of a user with an active room. */
  function SyncMirror(w: World): World {
    w.(mirror := w.mirror.(room :=
      map u | u in w.db.users.Keys + w.mirror.room.Keys && (u in w.mirror.room || ActiveRoom(w.db, u).Some?) ::
        if u in w.mirror.room then w.mirror.room[u] else ActiveRoom(w.db, u).value))
  }

  /** The exit button is offered only to users whose room keyboard is on. */
  function ExitRoomUi(w: World, u: UserId): World {
    if u in w.mirror.room && u !in w.mirror.suppressed then w.(mirror := w.mirror.(suppressed := w.mirror.suppressed + {u})) else w
  }

  function ShowRoom(w: World, u: UserId): World {
    if u !in w.mirror.room then w
    else
      var r := w.mirror.room[u];
      if r !in w.db.rooms || w.db.rooms[r].status == Deleted then w.(mirror := ClearMirror(w.mirror, {u}))
      else w.(mirror := w.mirror.(suppressed := w.mirror.suppressed - {u}))
  }
}
