/** Into which rooms messages go: into an open room from its members, and nowhere else. */
module SilentRooms {
  import opened Basics
  import opened Ledger
  import opened Database
  import opened RoomInvariant
  import opened World
  import opened RoomHandlers
  import opened WorldInvariant
  import opened BotRuns
  import opened NoMissedRooms
  import opened RoomEvolution
  import opened RoomRelay
  import opened RelaySteps
  import opened RelayRuns
  import opened Effects
  import opened RoomOutcomes
  import opened MemberOutcomes

  // ---------------------------------------------------------------- one message

  /** A message written while the mirror names a closed room goes nowhere, and changes nothing. */
  lemma ClosedRoomRelaysNothing(t: Talk, u: UserId, id: MsgId, us: seq<UserId>, fates: seq<Fate>, r: RoomId)
    requires TalkInv(t) && Get(t.w.mirror.room, u) == Some(r) && r in t.w.db.rooms && t.w.db.rooms[r].status == Closed
    ensures Next(t, Says(u, id, us, fates)) == t
  {
    hide Indexes, Histories, Settled, Say, Apply;
    assert IsMember(t.w.db, r, u);
    HealOutcome(t.w, u, r);
    AsMessage(t.w, u);
  }

  lemma AsMessage(w: World, u: UserId)
    ensures Apply(w, RoomMessage(u)) == match Get(w.mirror.room, u) case None => w case Some(r) => HealMirror(w, u, r)
  {
    hide HealMirror;
  }

  /** Without an entry, or with one Postgres does not confirm, nothing is relayed either; all
      that happens is that the wrong entry goes. */
  lemma UnconfirmedRelaysNothing(t: Talk, u: UserId, id: MsgId, us: seq<UserId>, fates: seq<Fate>)
    requires forall r | Get(t.w.mirror.room, u) == Some(r) ::
               !(r in t.w.db.rooms && t.w.db.rooms[r].status != Deleted && IsMember(t.w.db, r, u))
    ensures var t' := Next(t, Says(u, id, us, fates));
            && t'.rel == t.rel && t'.w == t.w.(mirror := t'.w.mirror)
            && u !in t'.w.mirror.room && forall v | v != u :: SameMirror(t.w.mirror, t'.w.mirror, v)
  {
    hide Say, Apply;
    AsMessage(t.w, u);
    if u in t.w.mirror.room { HealOutcome(t.w, u, t.w.mirror.room[u]); }
  }

  /** A message of a member of an open room is recorded for that room: the author's copy, and
      every copy delivered; nothing but the relay changes. */
  lemma OpenRoomRelays(t: Talk, u: UserId, id: MsgId, us: seq<UserId>, fates: seq<Fate>, r: RoomId)
    requires TalkInv(t) && Possible(t, Says(u, id, us, fates))
    requires Get(t.w.mirror.room, u) == Some(r) && IsOpen(t.w.db, r) && IsMember(t.w.db, r, u)
    ensures var t' := Next(t, Says(u, id, us, fates));
            var l := Logical(r, u, id);
            && t'.w == t.w && CopyOf(t'.rel, Copy(u, id), l)
            && forall i, mid | 0 <= i < |us| && fates[i].Delivered? && mid in fates[i].ids :: CopyOf(t'.rel, Copy(us[i], mid), l)
  {
    hide WorldInv, Histories, Settled, Say, Relay.Ids, Fresh, NewIds, IdsOk, OriginOk, Relay.Recorded;
    var l := Logical(r, u, id);
    NewMessageIsReady(t.rel, l, us, fates);
    SayKeeps(t.rel, l, us, fates);
    var rel := Say(t.rel, l, us, fates);
    IdIsCopy(rel, l, Copy(u, id));
    forall i, mid | 0 <= i < |us| && fates[i].Delivered? && mid in fates[i].ids ensures CopyOf(rel, Copy(us[i], mid), l) {
      IdIsCopy(rel, l, Copy(us[i], mid));
    }
  }

  predicate CopyOf(rel: Relay, c: Copy, l: Logical) {
    rel.Recorded(c) && rel.sent[c] == l
  }

  lemma IdIsCopy(rel: Relay, l: Logical, c: Copy)
    requires Indexes(rel) && c.id in rel.Ids(l, c.chat)
    ensures CopyOf(rel, c, l)
  {
    assert IdsOk(rel, l, c);
  }

  // ---------------------------------------------------------------- from closing to reopening

  predicate Reopening(w: World, e: Event, r: RoomId) {
    e.RoomSwitched? && e.isOpen && Owns(w.db, e.u, r)
  }

  lemma TableStays(w: World, e: Event)
    requires WorldInv(w)
    requires !(e.RoomLeft? || e.MemberKicked? || e.RoomDeleted? || e.RoomSwitched? || e.UserBanned? || e.RoomCreated?)
    ensures Apply(w, e).db.rooms == w.db.rooms
  {
    hide WorldInv, Apply, Sweep;
    if e.QueueSwept? {
      SweepTable(w, e.cutoff, e.rooms);
      assert Apply(w, e) == Sweep(w, e.cutoff, e.rooms) by { ApplyCreateOrSweep(w, e); }
    } else if Aside(e) {
      AsideUntouched(w, e);
    } else {
      SearchTable(w, e);
    }
  }

  lemma DeparturesOpenNothing(w: World, e: Event, r: RoomId)
    requires WorldInv(w) && (e.RoomLeft? || e.MemberKicked? || e.RoomDeleted?) && r in w.db.rooms && !IsOpen(w.db, r)
    ensures !IsOpen(Apply(w, e).db, r)
  {
    hide WorldInv, LeaveFlow, KickFlow, DeleteFlow, LivesOn, Dissolves;
    match e {
      case RoomLeft(u) =>
        LeaveOutcome(w, u);
        if ActiveRoom(w.db, u).Some? { DepartedTable(w, LeaveFlow(w, u), u, ActiveRoom(w.db, u).value, r); }
      case MemberKicked(u, target) =>
        KickOutcome(w, u, target);
        if ActiveRoom(w.db, target).Some? { DepartedTable(w, KickFlow(w, u, target), target, ActiveRoom(w.db, target).value, r); }
      case RoomDeleted(u) => DeleteOutcome(w, u);
    }
  }

  lemma DepartedTable(w: World, w': World, u: UserId, s: RoomId, r: RoomId)
    requires ActiveRoom(w.db, u) == Some(s) && r in w.db.rooms && !IsOpen(w.db, r)
    ensures s in w.db.rooms && Departed(w, w', u, s) ==> !IsOpen(w'.db, r)
  {
  }

  lemma SwitchOpensExactly(w: World, u: UserId, isOpen: bool, r: RoomId)
    requires WorldInv(w) && r in w.db.rooms && !IsOpen(w.db, r)
    ensures IsOpen(SetOpenFlow(w, u, isOpen).db, r) <==> isOpen && Owns(w.db, u, r)
  {
    hide WorldInv, SetOpenFlow;
    SwitchOutcome(w, u, isOpen);
    if s :| Owns(w.db, u, s) { assert Switches(w, SetOpenFlow(w, u, isOpen), u, s, isOpen); }
  }

  lemma BanOpensNothing(w: World, u: UserId, r: RoomId)
    requires WorldInv(w) && r in w.db.rooms && !IsOpen(w.db, r)
    ensures !IsOpen(EnforceBan(w, u).db, r)
  {
    hide WorldInv, EnforceBan;
    BannedOutcome(w, u);
  }

  lemma CreationOpensNoOther(w: World, u: UserId, pref: Pref, capacity: int, now: real, r: RoomId)
    requires WorldInv(w) && r in w.db.rooms && !IsOpen(w.db, r)
    ensures !IsOpen(CreateFlow(w, u, pref, capacity, now).db, r)
  {
    NextIsNew(w, r);
    hide WorldInv, CreateFlow, CanCreate;
    CreateOutcome(w, u, pref, capacity, now);
  }

  lemma ModerationOpensExactly(w: World, e: Event, r: RoomId)
    requires WorldInv(w) && (e.RoomSwitched? || e.UserBanned? || e.RoomCreated?) && r in w.db.rooms && !IsOpen(w.db, r)
    ensures IsOpen(Apply(w, e).db, r) <==> Reopening(w, e, r)
  {
    hide WorldInv, SetOpenFlow, EnforceBan, CreateFlow, Owns;
    match e {
      case RoomSwitched(u, isOpen) => SwitchOpensExactly(w, u, isOpen, r);
      case UserBanned(u) => BanOpensNothing(w, u, r);
      case RoomCreated(u, pref, capacity, now) => CreationOpensNoOther(w, u, pref, capacity, now, r);
    }
  }

  lemma NextIsNew(w: World, r: RoomId)
    requires WorldInv(w) && r in w.db.rooms
    ensures r != w.db.nextId
  {
    assert RoomOk(w.db, r);
  }

  /** A room that is not open is opened by its owner reopening it, and by nothing else. */
  lemma OpensExactly(w: World, e: Event, r: RoomId)
    requires WorldInv(w) && r in w.db.rooms && !IsOpen(w.db, r)
    ensures IsOpen(Apply(w, e).db, r) <==> Reopening(w, e, r)
  {
    hide WorldInv, Apply;
    if e.RoomLeft? || e.MemberKicked? || e.RoomDeleted? {
      DeparturesOpenNothing(w, e, r);
    } else if e.RoomSwitched? || e.UserBanned? || e.RoomCreated? {
      ModerationOpensExactly(w, e, r);
    } else {
      TableStays(w, e);
    }
  }

  /** A message sent into the room, written down or not. */
  predicate SentInto(rel: Relay, c: Copy, r: RoomId) {
    c in rel.sent && rel.sent[c].room == r
  }

  predicate Reopens(t: Talk, m: Moment, r: RoomId) {
    m.Happens? && Reopening(t.w, m.e, r)
  }

  lemma OtherRoomGrows(rel: Relay, rel': Relay, l: Logical, r: RoomId)
    requires Grows(rel, rel', l) && l.room != r
    ensures forall c :: SentInto(rel', c, r) <==> SentInto(rel, c, r)
  {
    hide Relay.Ids, Relay.Users;
    forall c ensures SentInto(rel', c, r) <==> SentInto(rel, c, r) {
      if c in rel.sent { assert Get(rel'.sent, c) == Get(rel.sent, c); }
    }
  }

  lemma SilentMoment(t: Talk, m: Moment, r: RoomId)
    requires TalkInv(t) && Possible(t, m) && r in t.w.db.rooms && !IsOpen(t.w.db, r)
    ensures forall c :: SentInto(Next(t, m).rel, c, r) <==> SentInto(t.rel, c, r)
  {
    hide WorldInv, Indexes, Histories, Settled, Apply, Allowed, Deleting, Say, Purge, Offer, Relay.Users, Relay.Ids,
      Fresh, NewIds;
    match m
    case Happens(e) => SameCopies(t, e);
    case Says(u, id, us, fates) =>
      if SpeaksIn(t.w, u).None? {
        NothingDeleted(t, u);
      } else {
        SpeakerConfirmed(t.w, u);
        var l := Logical(SpeaksIn(t.w, u).value, u, id);
        NewMessageIsReady(t.rel, l, us, fates);
        SayKeeps(t.rel, l, us, fates);
        OtherRoomGrows(t.rel, Say(t.rel, l, us, fates), l, r);
      }
    case OfferLapses(_) =>
    case Purges(p) => if p in t.rel.offers { PurgeLeavesIndexes(t.rel, p); } else { PurgeNothing(t.rel, p); }
  }

  lemma MomentOpensExactly(t: Talk, m: Moment, r: RoomId)
    requires TalkInv(t) && Possible(t, m) && r in t.w.db.rooms && !IsOpen(t.w.db, r)
    ensures r in Next(t, m).w.db.rooms && (IsOpen(Next(t, m).w.db, r) <==> Reopens(t, m, r))
  {
    hide WorldInv, Indexes, Histories, Settled, Apply, Allowed, Deleting, Say, Purge, Lapse, Offer, Relay.Users, Relay.Ids,
      Fresh, NewIds, SpeaksIn;
    match m
    case Happens(e) =>
      StepEvolves(t.w, e);
      OpensExactly(t.w, e, r);
    case Says(u, _, _, _) => TableStays(t.w, RoomMessage(u));
    case OfferLapses(_) =>
    case Purges(_) =>
  }

  ghost predicate NeverReopened(t: Talk, ms: seq<Moment>, r: RoomId)
    decreases |ms|
  {
    ms != [] ==> !Reopens(t, ms[0], r) && NeverReopened(Next(t, ms[0]), ms[1..], r)
  }

  /** While a room is not open nothing is sent into it. */
  lemma {:induction false} ShutRoomIsSilent(t: Talk, ms: seq<Moment>, r: RoomId)
    requires TalkInv(t) && PossibleRun(t, ms) && r in t.w.db.rooms && !IsOpen(t.w.db, r) && NeverReopened(t, ms, r)
    ensures !IsOpen(After(t, ms).w.db, r) && forall c :: SentInto(After(t, ms).rel, c, r) <==> SentInto(t.rel, c, r)
    decreases |ms|
  {
    hide TalkInv, Next, Possible, SentInto, Reopens;
    if ms != [] {
      NextKeeps(t, ms[0]);
      SilentMoment(t, ms[0], r);
      MomentOpensExactly(t, ms[0], r);
      ShutRoomIsSilent(Next(t, ms[0]), ms[1..], r);
    }
  }

  /** From the moment an owner closes its room until it reopens it, whatever happens, not one
      copy is added to the room. */
  lemma SilentFromClosingToReopening(t: Talk, owner: UserId, r: RoomId, ms: seq<Moment>)
    requires TalkInv(t) && Owns(t.w.db, owner, r)
    requires var t1 := Next(t, Happens(RoomSwitched(owner, false))); PossibleRun(t1, ms) && NeverReopened(t1, ms, r)
    ensures var t1 := Next(t, Happens(RoomSwitched(owner, false)));
            forall c :: SentInto(After(t1, ms).rel, c, r) <==> SentInto(t.rel, c, r)
  {
    hide WorldInv, Indexes, Histories, Settled, Apply, After, PossibleRun, NeverReopened, Deleting, SentInto;
    var e := RoomSwitched(owner, false);
    var t1 := Next(t, Happens(e));
    NextKeeps(t, Happens(e)) by { PossibleEvent(t, e); }
    ClosedNow(t.w, owner, r);
    SameSent(t, e, r);
    ShutRoomIsSilent(t1, ms, r);
  }

  lemma ClosedNow(w: World, owner: UserId, r: RoomId)
    requires WorldInv(w) && Owns(w.db, owner, r)
    ensures var w' := Apply(w, RoomSwitched(owner, false));
            r in w'.db.rooms && !IsOpen(w'.db, r) && Allowed(w, RoomSwitched(owner, false))
  {
    hide WorldInv, SetOpenFlow;
    SwitchOutcome(w, owner, false);
  }

  lemma SameSent(t: Talk, e: Event, r: RoomId)
    ensures forall c :: SentInto(Next(t, Happens(e)).rel, c, r) <==> SentInto(t.rel, c, r)
  {
    hide Apply, Deleting, Offer;
    SameCopies(t, e);
  }

  // ---------------------------------------------------------------- offers and purges

  /** Besides messages, only the deletion of a room, the lapse of an offer and a purge touch the
      relay: the first makes an offer, the second takes it back, the third empties the
      histories of its room. */
  lemma OffersAndPurges(t: Talk, r: RoomId)
    requires TalkInv(t)
    ensures var lapsed := Next(t, OfferLapses(r));
            && lapsed.w == t.w && lapsed.rel == t.rel.(offers := lapsed.rel.offers) && PurgeTargets(lapsed.rel, r) == {}
            && forall s | s != r :: Get(lapsed.rel.offers, s) == Get(t.rel.offers, s)
    ensures var purged := Next(t, Purges(r));
            && purged.w == t.w && purged.rel.recipients == t.rel.recipients && purged.rel.origin == t.rel.origin
            && forall s, u :: purged.rel.History(s, u) == if s == r && r in t.rel.offers then [] else t.rel.History(s, u)
  {
    hide WorldInv, Indexes, Histories, Settled, Purge, Relay.History, Relay.Users, PurgeTargets;
    LapseOutcome(t.rel, r);
    if r in t.rel.offers {
      PurgeKeeps(t.rel, r);
      PurgeLeavesIndexes(t.rel, r);
    } else {
      PurgeNothing(t.rel, r);
    }
  }

  lemma EventsOffer(t: Talk, e: Event)
    ensures var t' := Next(t, Happens(e));
            && t'.w == Apply(t.w, e) && t'.rel == t.rel.(offers := t'.rel.offers)
            && forall r :: Get(t'.rel.offers, r) ==
                 if Deleting(t.w, e).Some? && Deleting(t.w, e).value.room == r && t.rel.Users(r) != {}
                 then Some(Deleting(t.w, e).value.members + t.rel.Users(r)) else Get(t.rel.offers, r)
  {
    hide Apply, Deleting, Relay.Users, Offer;
    var d := Deleting(t.w, e);
    if d.Some? { OfferOutcome(t.rel, d.value.room, d.value.members); }
  }
}
