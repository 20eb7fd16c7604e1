/** Runs of the bot together with the messages said in its rooms. */
module RelayRuns {
  import opened Basics
  import opened Ledger
  import opened Database
  import opened RoomInvariant
  import opened World
  import opened RoomHandlers
  import opened WorldInvariant
  import opened RoomFlows
  import opened BotRuns
  import opened RoomEvolution
  import opened RoomRelay
  import opened RelaySteps

  datatype Talk = Talk(w: World, rel: Relay)

  /** `Says`: the recipients in the order Postgres lists them, and how each send ended. */
  datatype Moment =
    | Happens(e: Event)
    | Says(u: UserId, id: MsgId, us: seq<UserId>, fates: seq<Fate>)
    | OfferLapses(r: RoomId)
    | Purges(r: RoomId)

  /** Postgres confirms what the mirror says. */
  predicate Confirmed(db: Db, r: RoomId, u: UserId) {
    r in db.rooms && db.rooms[r].status != Deleted && IsMember(db, r, u)
  }

  /** The room into which a message of `u` is relayed. */
  function SpeaksIn(w: World, u: UserId): Option<RoomId> {
    match Get(w.mirror.room, u)
    case None => None
    case Some(r) => if Confirmed(w.db, r, u) && IsOpen(w.db, r) then Some(r) else None
  }

  function Heard(t: Talk, u: UserId, id: MsgId, us: seq<UserId>, fates: seq<Fate>): Talk {
    match SpeaksIn(t.w, u)
    case Some(r) => if |us| == |fates| then t.(rel := Say(t.rel, Logical(r, u, id), us, fates)) else t
    case None => t.(w := Apply(t.w, RoomMessage(u)))
  }

  function AfterEvent(w: World, e: Event, rel: Relay): Relay {
    match Deleting(w, e)
    case None => rel
    case Some(d) => Offer(rel, d.room, d.members)
  }

  function Next(t: Talk, m: Moment): Talk {
    match m
    case Happens(e) => Talk(Apply(t.w, e), AfterEvent(t.w, e, t.rel))
    case Says(u, id, us, fates) => Heard(t, u, id, us, fates)
    case OfferLapses(r) => t.(rel := Lapse(t.rel, r))
    case Purges(r) => t.(rel := Purge(t.rel, r))
  }

  /** Recipients are the other members of the room the mirror names, each once; message ids are
      new in their chats. */
  ghost predicate Possible(t: Talk, m: Moment) {
    match m
    case Happens(e) => Allowed(t.w, e)
    case Says(u, id, us, fates) =>
      && |us| == |fates| && Copy(u, id) !in t.rel.sent
      && (forall i, j | 0 <= i < j < |us| :: us[i] != us[j])
      && (forall i | 0 <= i < |us| :: Fresh(t.rel, us[i], NewIds(fates[i])))
      && (u in t.w.mirror.room ==> forall v :: v in us <==> v != u && IsMember(t.w.db, t.w.mirror.room[u], v))
    case _ => true
  }

  /** Every copy belongs to a room that exists; only deleted rooms are purged or offered to
      be; and an offer covers everybody with a history. */
  ghost predicate TalkInv(t: Talk) {
    && WorldInv(t.w) && Indexes(t.rel) && Histories(t.rel) && Settled(t.rel)
    && (forall c | c in t.rel.sent :: t.rel.sent[c].room in t.w.db.rooms)
    && (forall r | r in t.rel.purged :: IsDeleted(t.w.db, r))
    && (forall r | r in t.rel.offers :: IsDeleted(t.w.db, r) && t.rel.Users(r) <= t.rel.offers[r])
  }

  const SILENCE := Talk(EMPTY, NO_MESSAGES)

  lemma SilenceIsGood()
    ensures TalkInv(SILENCE)
  {
    hide WorldInv;
    EmptyIsGood();
    assert forall l, c :: IdsOk(NO_MESSAGES, l, c) && OriginOk(NO_MESSAGES, l, c);
    assert forall r, c :: HistoryOk(NO_MESSAGES, r, c);
  }

  lemma OfferFrame(rel: Relay, room: RoomId, members: set<UserId>)
    ensures var rel' := Offer(rel, room, members);
            && rel'.sent == rel.sent && rel'.purged == rel.purged
            && (forall r :: rel'.Users(r) == rel.Users(r)) && (forall r, u :: rel'.History(r, u) == rel.History(r, u))
            && (Indexes(rel) ==> Indexes(rel')) && (Histories(rel) ==> Histories(rel')) && (Settled(rel) ==> Settled(rel'))
            && (forall r | r in rel'.offers :: r in rel.offers || r == room)
            && (forall r | r in rel'.offers && r != room :: rel'.offers[r] == rel.offers[r])
            && (room in rel'.offers ==> rel.Users(room) <= rel'.offers[room] || (rel.Users(room) == {} && rel' == rel))
            && (rel.Users(room) != {} ==> room in rel'.offers)
  {
    KeysFrame(rel, Offer(rel, room, members));
    hide Indexes, Histories, Settled, Relay.History;
  }

  lemma KeysFrame(rel: Relay, rel': Relay)
    requires rel' == rel.(offers := rel'.offers)
    ensures forall r :: rel'.Users(r) == rel.Users(r)
    ensures forall r, u :: rel'.History(r, u) == rel.History(r, u)
    ensures Indexes(rel) ==> Indexes(rel')
    ensures Histories(rel) ==> Histories(rel')
    ensures Settled(rel) ==> Settled(rel')
  {
    SameKeys(rel, rel');
    assert forall c :: rel'.Recorded(c) == rel.Recorded(c);
    hide Relay.Ids, Relay.OriginOf, Relay.History, Relay.Users, Relay.Recorded, NoRepeats;
    if Indexes(rel) {
      forall m, c ensures IdsOk(rel', m, c) && OriginOk(rel', m, c) { assert IdsOk(rel, m, c) && OriginOk(rel, m, c); }
    }
    if Histories(rel) {
      forall r, c ensures HistoryOk(rel', r, c) { assert HistoryOk(rel, r, c); }
    }
  }

  lemma HappensKeeps(t: Talk, e: Event)
    requires TalkInv(t) && Allowed(t.w, e)
    ensures TalkInv(Next(t, Happens(e)))
  {
    hide WorldInv, Indexes, Histories, Settled, Apply, Allowed, Deleting, Offer, Relay.Users, Relay.History;
    StepKeeps(t.w, e);
    StepEvolves(t.w, e);
    var d := Deleting(t.w, e);
    if d.Some? { OfferFrame(t.rel, d.value.room, d.value.members); }
  }

  lemma SpeakerConfirmed(w: World, u: UserId)
    requires WorldInv(w) && SpeaksIn(w, u).Some?
    ensures SpeaksIn(w, u).value in w.db.rooms && !IsDeleted(w.db, SpeaksIn(w, u).value)
    ensures u in w.mirror.room && w.mirror.room[u] == SpeaksIn(w, u).value
  {
  }

  lemma SaysKeeps(t: Talk, u: UserId, id: MsgId, us: seq<UserId>, fates: seq<Fate>)
    requires TalkInv(t) && Possible(t, Says(u, id, us, fates))
    ensures TalkInv(Heard(t, u, id, us, fates))
  {
    hide WorldInv, Indexes, Histories, Settled, Apply, SpeaksIn, Say, Relay.Users, Relay.Ids, Fresh, NewIds;
    match SpeaksIn(t.w, u)
    case None =>
      HappensKeeps(t, RoomMessage(u));
      assert Next(t, Happens(RoomMessage(u))) == t.(w := Apply(t.w, RoomMessage(u))) by { NothingDeleted(t, u); }
    case Some(r) =>
      SpeakerConfirmed(t.w, u);
      var l := Logical(r, u, id);
      NewMessageIsReady(t.rel, l, us, fates);
      SayKeeps(t.rel, l, us, fates);
      SaidInv(t, Say(t.rel, l, us, fates), l);
  }

  lemma NothingDeleted(t: Talk, u: UserId)
    ensures Allowed(t.w, RoomMessage(u)) && Next(t, Happens(RoomMessage(u))) == t.(w := Apply(t.w, RoomMessage(u)))
  {
    hide Apply;
  }

  lemma SaidInv(t: Talk, rel': Relay, l: Logical)
    requires TalkInv(t) && Grows(t.rel, rel', l) && Indexes(rel') && Histories(rel') && Settled(rel')
    requires l.room in t.w.db.rooms && !IsDeleted(t.w.db, l.room)
    ensures TalkInv(t.(rel := rel'))
  {
    hide WorldInv, Indexes, Histories, Settled, Relay.Users, Relay.Ids;
    forall c | c in rel'.sent ensures rel'.sent[c].room in t.w.db.rooms {
      if c in t.rel.sent { assert Get(rel'.sent, c) == Get(t.rel.sent, c); }
    }
  }

  lemma PurgesKeeps(t: Talk, r: RoomId)
    requires TalkInv(t)
    ensures TalkInv(t.(rel := Purge(t.rel, r))) && TalkInv(t.(rel := Lapse(t.rel, r)))
  {
    hide WorldInv, Indexes, Histories, Settled, Purge, Relay.Users, Relay.History;
    KeysFrame(t.rel, Lapse(t.rel, r));
    if r in t.rel.offers {
      PurgeKeeps(t.rel, r);
      PurgeLeavesIndexes(t.rel, r);
    } else {
      PurgeNothing(t.rel, r);
    }
  }

  lemma PurgeNothing(rel: Relay, r: RoomId)
    requires r !in rel.offers
    ensures Purge(rel, r) == rel
  {
  }

  lemma NextKeeps(t: Talk, m: Moment)
    requires TalkInv(t) && Possible(t, m)
    ensures TalkInv(Next(t, m))
  {
    hide TalkInv, Apply, AfterEvent, Heard, Purge, Lapse;
    match m
    case Happens(e) => HappensKeeps(t, e);
    case Says(u, id, us, fates) => SaysKeeps(t, u, id, us, fates);
    case OfferLapses(r) => PurgesKeeps(t, r);
    case Purges(r) => PurgesKeeps(t, r);
  }

  function After(t: Talk, ms: seq<Moment>): Talk
    decreases |ms|
  {
    if ms == [] then t else After(Next(t, ms[0]), ms[1..])
  }

  ghost predicate PossibleRun(t: Talk, ms: seq<Moment>)
    decreases |ms|
  {
    ms != [] ==> Possible(t, ms[0]) && PossibleRun(Next(t, ms[0]), ms[1..])
  }

  lemma {:induction false} AfterKeeps(t: Talk, ms: seq<Moment>)
    requires TalkInv(t) && PossibleRun(t, ms)
    ensures TalkInv(After(t, ms))
    decreases |ms|
  {
    hide TalkInv, Next, Possible;
    if ms != [] {
      NextKeeps(t, ms[0]);
      AfterKeeps(Next(t, ms[0]), ms[1..]);
    }
  }

  // ---------------------------------------------------------------- over whole runs

  /** In every reachable state: "delete" on any recorded copy by its author or the owner
      reaches exactly the recorded copies of that message. */
  lemma DeleteInEveryRun(ms: seq<Moment>, c: Copy, owner: UserId)
    requires PossibleRun(SILENCE, ms)
    requires var rel := After(SILENCE, ms).rel; rel.Recorded(c) && (c.chat == rel.sent[c].sender || c.chat == owner)
    ensures var rel := After(SILENCE, ms).rel;
            var t := DeleteTargets(rel, rel.sent[c].room, owner, c.chat, c.id);
            t.Done? && forall d :: d in t.value <==> rel.Recorded(d) && rel.sent[d] == rel.sent[c]
  {
    hide WorldInv, Next, Possible, DeleteTargets, Indexes, Histories, Settled;
    SilenceIsGood();
    AfterKeeps(SILENCE, ms);
    var rel := After(SILENCE, ms).rel;
    assert c == Copy(c.chat, c.id);
    DeleteReachesRecorded(rel, rel.sent[c], owner, c.chat, c.id);
  }

  /** The message is sent, and has the strays it had. */
  ghost predicate SameStrays(rel: Relay, rel': Relay, l: Logical) {
    Copy(l.sender, l.id) in rel'.sent && forall c :: Stray(rel', l, c) <==> Stray(rel, l, c)
  }

  /** Whatever is said later, a message neither gains nor loses a stray. */
  lemma SaidElsewhere(rel: Relay, rel': Relay, m: Logical, l: Logical)
    requires Grows(rel, rel', m) && m != l && Copy(l.sender, l.id) in rel.sent && forall c | c in rel.strays :: c in rel.sent
    ensures SameStrays(rel, rel', l)
  {
    hide Relay.Ids, Relay.Users;
    assert Get(rel'.sent, Copy(l.sender, l.id)) == Get(rel.sent, Copy(l.sender, l.id));
    forall c ensures Stray(rel', l, c) <==> Stray(rel, l, c) {
      if c in rel.sent { assert Get(rel'.sent, c) == Get(rel.sent, c); }
    }
  }

  lemma StraysStay(t: Talk, m: Moment, l: Logical)
    requires TalkInv(t) && Possible(t, m) && Copy(l.sender, l.id) in t.rel.sent
    ensures SameStrays(t.rel, Next(t, m).rel, l)
  {
    hide WorldInv, Histories, Settled, Apply, Allowed, Deleting, Say, Purge, Offer, Relay.Users, Relay.Ids,
      Fresh, NewIds, SpeaksIn, IdsOk, OriginOk, NoRepeats;
    match m
    case Happens(e) => SameCopies(t, e);
    case Says(u, id, us, fates) =>
      if SpeaksIn(t.w, u).None? {
        NothingDeleted(t, u);
      } else {
        SpeakerConfirmed(t.w, u);
        var said := Logical(SpeaksIn(t.w, u).value, u, id);
        NewMessageIsReady(t.rel, said, us, fates);
        SayKeeps(t.rel, said, us, fates);
        SaidElsewhere(t.rel, Say(t.rel, said, us, fates), said, l);
      }
    case OfferLapses(_) =>
    case Purges(p) => if p in t.rel.offers { PurgeLeavesIndexes(t.rel, p); } else { PurgeNothing(t.rel, p); }
  }

  lemma {:induction false} StraysStayInEveryRun(t: Talk, ms: seq<Moment>, l: Logical)
    requires TalkInv(t) && PossibleRun(t, ms) && Copy(l.sender, l.id) in t.rel.sent
    ensures SameStrays(t.rel, After(t, ms).rel, l)
    decreases |ms|
  {
    hide TalkInv, Next, Possible, Stray;
    if ms != [] {
      NextKeeps(t, ms[0]);
      StraysStay(t, ms[0], l);
      StraysStayInEveryRun(Next(t, ms[0]), ms[1..], l);
    }
  }

  /** The moment a message is relayed. */
  lemma SaidNow(t: Talk, u: UserId, id: MsgId, us: seq<UserId>, fates: seq<Fate>)
    requires TalkInv(t) && Possible(t, Says(u, id, us, fates)) && SpeaksIn(t.w, u).Some?
    ensures var l := Logical(SpeaksIn(t.w, u).value, u, id);
            var rel' := Next(t, Says(u, id, us, fates)).rel;
            Copy(u, id) in rel'.sent && (Strayless(rel', l) <==> AllWhole(fates))
  {
    hide WorldInv, Indexes, Histories, Apply, SpeaksIn, Say, Relay.Users, Relay.Ids, Fresh, NewIds, Strayless, AllWhole;
    SpeakerConfirmed(t.w, u);
    var l := Logical(SpeaksIn(t.w, u).value, u, id);
    NewMessageIsReady(t.rel, l, us, fates);
    SayKeeps(t.rel, l, us, fates);
    SayStrays(t.rel, l, us, fates);
    AuthorsCopy(Say(t.rel, l, us, fates), l);
  }

  lemma AuthorsCopy(rel: Relay, l: Logical)
    requires Indexes(rel) && rel.Ids(l, l.sender) == [l.id]
    ensures Copy(l.sender, l.id) in rel.sent
  {
    assert IdsOk(rel, l, Copy(l.sender, l.id));
  }

  /** However long after a message was relayed, and whatever was said, deleted or purged in
      between, "delete" on any recorded copy of it by its author or the owner reaches every
      copy there is exactly when no send of it ended with the label alone. */
  lemma DeleteReachesAllExactlyInEveryRun(t: Talk, u: UserId, id: MsgId, us: seq<UserId>, fates: seq<Fate>, later: seq<Moment>,
                                          owner: UserId, c: Copy)
    requires TalkInv(t) && Possible(t, Says(u, id, us, fates)) && SpeaksIn(t.w, u).Some?
    requires PossibleRun(Next(t, Says(u, id, us, fates)), later)
    requires var rel := After(Next(t, Says(u, id, us, fates)), later).rel;
             rel.Recorded(c) && rel.sent[c] == Logical(SpeaksIn(t.w, u).value, u, id) && (c.chat == u || c.chat == owner)
    ensures var rel := After(Next(t, Says(u, id, us, fates)), later).rel;
            var l := Logical(SpeaksIn(t.w, u).value, u, id);
            var targets := DeleteTargets(rel, l.room, owner, c.chat, c.id);
            targets.Done? && ((forall d | Get(rel.sent, d) == Some(l) :: d in targets.value) <==> AllWhole(fates))
  {
    hide WorldInv, Next, Possible, DeleteTargets, Indexes, Histories, Settled, SpeaksIn, AllWhole, After, PossibleRun, Stray;
    var l := Logical(SpeaksIn(t.w, u).value, u, id);
    var t1 := Next(t, Says(u, id, us, fates));
    var rel := After(t1, later).rel;
    NextKeeps(t, Says(u, id, us, fates));
    SaidNow(t, u, id, us, fates);
    StraysStayInEveryRun(t1, later, l);
    AfterKeeps(t1, later);
    assert c == Copy(c.chat, c.id);
    DeleteMissesStrays(rel, l, owner, c.chat, c.id);
    assert forall d | Stray(rel, l, d) :: Get(rel.sent, d) == Some(l) by { StraysAreCopies(rel, l); }
  }

  /** An edit reaches exactly the recorded copies in the chats of the others. */
  lemma EditInEveryRun(ms: seq<Moment>, l: Logical)
    requires PossibleRun(SILENCE, ms)
    ensures var rel := After(SILENCE, ms).rel;
            var t := EditTargets(rel, l.room, l.sender, l.id);
            && (t.Done? <==> rel.Recorded(Copy(l.sender, l.id)) && rel.sent[Copy(l.sender, l.id)] == l)
            && (t.Done? ==> forall c :: c in t.value <==> rel.Recorded(c) && rel.sent[c] == l && c.chat != l.sender)
  {
    hide WorldInv, Next, Possible, EditTargets, Indexes, Histories, Settled;
    SilenceIsGood();
    AfterKeeps(SILENCE, ms);
    EditReachesOthers(After(SILENCE, ms).rel, l.room, l.sender, l.id);
  }

  /** A relayed reply quotes, in the chat of `u`, a recorded copy of the message replied to,
      and nothing only where there is none. */
  lemma QuoteInEveryRun(ms: seq<Moment>, c: Copy, u: UserId)
    requires PossibleRun(SILENCE, ms) && After(SILENCE, ms).rel.Recorded(c)
    ensures var rel := After(SILENCE, ms).rel;
            var l := rel.sent[c];
            var q := QuoteFor(rel, l.room, c.chat, c.id, u);
            && (q.Some? ==> rel.Recorded(Copy(u, q.value)) && rel.sent[Copy(u, q.value)] == l)
            && (q.None? <==> forall id :: !(rel.Recorded(Copy(u, id)) && rel.sent[Copy(u, id)] == l))
  {
    hide WorldInv, Next, Possible, QuoteFor, Indexes, Histories, Settled;
    SilenceIsGood();
    AfterKeeps(SILENCE, ms);
    var rel := After(SILENCE, ms).rel;
    assert c == Copy(c.chat, c.id);
    QuoteIsACopy(rel, rel.sent[c], c.chat, c.id, u);
  }

  /** The moment a room with recorded copies is deleted, its purge is on offer. */
  lemma DeletionOffers(t: Talk, e: Event, c: Copy)
    requires TalkInv(t) && Allowed(t.w, e) && Deleting(t.w, e).Some?
    requires t.rel.Recorded(c) && t.rel.sent[c].room == Deleting(t.w, e).value.room
    ensures var r := Deleting(t.w, e).value.room;
            r !in t.rel.purged && r in Next(t, Happens(e)).rel.offers
  {
    hide WorldInv, Indexes, Histories, Settled, Apply, Deleting, Allowed, Offer, Relay.Users, Relay.Recorded;
    var r := Deleting(t.w, e).value.room;
    NotYetDeleted(t, e);
    RecordedHasUser(t.rel, c);
    OfferFrame(t.rel, r, Deleting(t.w, e).value.members);
  }

  lemma RecordedHasUser(rel: Relay, c: Copy)
    requires Histories(rel) && rel.Recorded(c) && rel.sent[c].room !in rel.purged
    ensures c.chat in rel.Users(rel.sent[c].room)
  {
    hide Relay.Users, Relay.History;
    assert HistoryOk(rel, rel.sent[c].room, c);
  }

  lemma NotYetDeleted(t: Talk, e: Event)
    requires TalkInv(t) && Deleting(t.w, e).Some?
    ensures !IsDeleted(t.w.db, Deleting(t.w, e).value.room) && Deleting(t.w, e).value.room !in t.rel.purged
  {
    hide Indexes, Histories, Settled;
    var u := e.u;
    match e {
      case RoomDeleted(_) => LiveRoom(t.w.db, u, Deleting(t.w, e).value.room);
      case RoomLeft(_) => LiveRoom(t.w.db, u, Deleting(t.w, e).value.room);
      case MemberKicked(_, _) => LiveRoom(t.w.db, u, Deleting(t.w, e).value.room);
      case _ => assert false;
    }
  }

  /** Whether a copy belongs to a room. */
  predicate OfRoom(rel: Relay, c: Copy, r: RoomId) {
    rel.Recorded(c) && rel.sent[c].room == r
  }

  lemma DeletedStep(t: Talk, m: Moment, r: RoomId)
    requires TalkInv(t) && Possible(t, m) && IsDeleted(t.w.db, r)
    ensures IsDeleted(Next(t, m).w.db, r)
    ensures forall c :: OfRoom(Next(t, m).rel, c, r) <==> OfRoom(t.rel, c, r)
    ensures r in t.rel.purged ==> r in Next(t, m).rel.purged
  {
    hide WorldInv, Indexes, Histories, Settled, Apply, Allowed, Deleting, Say, Purge, Offer, Relay.Users, Relay.Ids,
      Fresh, NewIds, SpeaksIn;
    match m
    case Happens(e) =>
      StepEvolves(t.w, e);
      SameCopies(t, e);
    case Says(u, id, us, fates) =>
      if SpeaksIn(t.w, u).None? {
        StepEvolves(t.w, RoomMessage(u));
        NothingDeleted(t, u);
      } else {
        SpeakerConfirmed(t.w, u);
        var l := Logical(SpeaksIn(t.w, u).value, u, id);
        NewMessageIsReady(t.rel, l, us, fates);
        SayKeeps(t.rel, l, us, fates);
        OtherRoomSilent(t.rel, Say(t.rel, l, us, fates), l, r);
      }
    case OfferLapses(_) =>
    case Purges(p) => if p in t.rel.offers { PurgeLeavesIndexes(t.rel, p); } else { PurgeNothing(t.rel, p); }
  }

  lemma SameCopies(t: Talk, e: Event)
    ensures var rel' := Next(t, Happens(e)).rel;
            rel'.sent == t.rel.sent && rel'.strays == t.rel.strays && rel'.purged == t.rel.purged
  {
    hide Apply, Deleting;
  }

  lemma OtherRoomSilent(rel: Relay, rel': Relay, l: Logical, r: RoomId)
    requires Grows(rel, rel', l) && l.room != r && Indexes(rel)
    ensures forall c :: OfRoom(rel', c, r) <==> OfRoom(rel, c, r)
    ensures rel'.purged == rel.purged
  {
    hide Relay.Ids, Relay.Users, IdsOk, OriginOk, NoRepeats;
    forall c ensures OfRoom(rel', c, r) <==> OfRoom(rel, c, r) {
      if c in rel.sent { assert Get(rel'.sent, c) == Get(rel.sent, c); }
    }
  }

  /** Once a room is deleted nothing is ever recorded for it again. */
  lemma {:induction false} DeletedRoomsAreSilent(t: Talk, ms: seq<Moment>, r: RoomId)
    requires TalkInv(t) && PossibleRun(t, ms) && IsDeleted(t.w.db, r)
    ensures forall c :: OfRoom(After(t, ms).rel, c, r) <==> OfRoom(t.rel, c, r)
    ensures r in t.rel.purged ==> r in After(t, ms).rel.purged
    decreases |ms|
  {
    hide TalkInv, Next, Possible, OfRoom;
    if ms != [] {
      NextKeeps(t, ms[0]);
      DeletedStep(t, ms[0], r);
      DeletedRoomsAreSilent(Next(t, ms[0]), ms[1..], r);
    }
  }

  /** Purge coverage, end to end. Some event deletes room `r`; however the bot goes on, a
      first purge made while the offer stands tries to delete exactly the copies recorded
      for the room before its deletion, and from then on its histories stay empty. */
  lemma PurgeCoverage(t: Talk, e: Event, ms: seq<Moment>, later: seq<Moment>)
    requires TalkInv(t) && Allowed(t.w, e) && Deleting(t.w, e).Some?
    requires var t1 := Next(t, Happens(e)); var r := Deleting(t.w, e).value.room;
             && PossibleRun(t1, ms) && r in After(t1, ms).rel.offers && r !in After(t1, ms).rel.purged
             && PossibleRun(Next(After(t1, ms), Purges(r)), later)
    ensures var r := Deleting(t.w, e).value.room;
            var t2 := After(Next(t, Happens(e)), ms);
            && (forall c :: c in PurgeTargets(t2.rel, r) <==> OfRoom(t.rel, c, r))
            && (forall u :: After(Next(t2, Purges(r)), later).rel.History(r, u) == [])
  {
    hide WorldInv, Indexes, Settled, Next, Deleting, Allowed, Possible, PurgeTargets, Relay.History, Relay.Users,
      OfRoom, After, PossibleRun;
    var r := Deleting(t.w, e).value.room;
    var t1 := Next(t, Happens(e));
    var t2 := After(t1, ms);
    var t3 := Next(t2, Purges(r));
    NextKeeps(t, Happens(e)) by { PossibleEvent(t, e); }
    DeletedNow(t, e);
    AfterKeeps(t1, ms);
    DeletedRoomsAreSilent(t1, ms, r);
    PurgeReachesAll(t2.rel, r);
    RecordedOfRoom(t2.rel, r);
    EmptyAfterPurge(t2, r, later);
  }

  lemma PossibleEvent(t: Talk, e: Event)
    requires Allowed(t.w, e)
    ensures Possible(t, Happens(e))
  {
  }

  lemma RecordedOfRoom(rel: Relay, r: RoomId)
    ensures forall c :: OfRoom(rel, c, r) <==> rel.Recorded(c) && rel.sent[c].room == r
  {
  }

  lemma DeletedNow(t: Talk, e: Event)
    requires TalkInv(t) && Deleting(t.w, e).Some?
    ensures var r := Deleting(t.w, e).value.room;
            && IsDeleted(Next(t, Happens(e)).w.db, r)
            && forall c :: OfRoom(Next(t, Happens(e)).rel, c, r) <==> OfRoom(t.rel, c, r)
  {
    hide WorldInv, Indexes, Histories, Settled, Apply, Deleting;
    StepEvolves(t.w, e);
    SameCopies(t, e);
  }

  lemma EmptyAfterPurge(t: Talk, r: RoomId, later: seq<Moment>)
    requires TalkInv(t) && r in t.rel.offers && PossibleRun(Next(t, Purges(r)), later)
    ensures forall u :: After(Next(t, Purges(r)), later).rel.History(r, u) == []
  {
    hide WorldInv, Indexes, Settled, Apply, Possible, Relay.History, Relay.Users, After, PossibleRun, Purge;
    var t1 := Next(t, Purges(r));
    NextKeeps(t, Purges(r)) by { PossiblePurge(t, r); }
    PurgeLeavesIndexes(t.rel, r);
    DeletedRoomsAreSilent(t1, later, r);
    AfterKeeps(t1, later);
    var rel := After(t1, later).rel;
    forall u ensures rel.History(r, u) == [] {
      forall id ensures id !in rel.History(r, u) { assert HistoryOk(rel, r, Copy(u, id)); }
      SomeElement(rel.History(r, u));
    }
  }

  lemma SomeElement(s: seq<MsgId>)
    ensures s != [] ==> exists id :: id in s
  {
    if s != [] {
      var first := s[0];
      assert first in s;
    }
  }

  lemma PossiblePurge(t: Talk, r: RoomId)
    ensures Possible(t, Purges(r))
  {
  }
}
