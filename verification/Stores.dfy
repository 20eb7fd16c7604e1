/** The two stores behind the bot, and the checks handlers make on them. */
module BotStores {
  import opened Basics
  import opened Database
  import opened World
  import opened WaitingQueueKeys
  import opened PostgresTables
  import opened RedisKeys

  class Stores {
    const pg: Postgres
    const queue: WaitingQueue
    const pairs: ChatKeys
    const seekers: SeekerKeys
    const mirror: MirrorKeys
    const requests: RequestKeys

    constructor (pg: Postgres, queue: WaitingQueue, pairs: ChatKeys, seekers: SeekerKeys, mirror: MirrorKeys, requests: RequestKeys)
      ensures this.pg == pg && this.queue == queue && this.pairs == pairs && this.seekers == seekers
      ensures this.mirror == mirror && this.requests == requests
    {
      this.pg, this.queue, this.pairs := pg, queue, pairs;
      this.seekers, this.mirror, this.requests := seekers, mirror, requests;
    }

    ghost function Snapshot(): World
      reads pg, queue, pairs, seekers, mirror, requests
    {
      World(pg.Model(), queue.Model(), pairs.Model(), seekers.Model(), mirror.Model(), requests.Model())
    }

    function Keys(): set<object> {
      {pg, queue, pairs, seekers, mirror, requests}
    }

    // -------------------------------------------------------------- checks

    method IsWaiting(u: UserId) returns (b: bool)
      ensures b == Snapshot().queue.Waiting(u)
    {
      b := u in queue.male || u in queue.female;
    }

    /** The bucket order of the source: male, female, any. */
    method IsWaitingRoomJoin(u: UserId) returns (filter: Option<Pref>)
      ensures filter == Snapshot().seekers.Filter(u)
    {
      if u in seekers.male { return Some(MalePref); }
      if u in seekers.female { return Some(FemalePref); }
      if u in seekers.any { return Some(AnyPref); }
      return None;
    }

    method HasRoomConflict(u: UserId) returns (b: bool)
      ensures b == OnRoomSide(Snapshot(), u)
    {
      if u in pg.users && pg.users[u].activeRoom.Some? { return true; }
      var filter := IsWaitingRoomJoin(u);
      b := filter.Some?;
    }

    method RedisConflictCheck(u: UserId) returns (conflict: Option<Error>)
      ensures conflict == RedisConflict(Snapshot(), u)
    {
      if u in pairs.partner { return Some(In1to1); }
      var waiting := IsWaiting(u);
      return if waiting then Some(InQueue) else None;
    }

    method CheckCanStartRoomFlow(u: UserId) returns (blocked: bool)
      ensures blocked == CannotStartRoomFlow(Snapshot(), u)
    {
      if u in pairs.partner { return true; }
      var waiting := IsWaiting(u);
      if waiting { return true; }
      var filter := IsWaitingRoomJoin(u);
      blocked := filter.Some?;
    }
  }
}
