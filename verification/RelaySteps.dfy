/** Saying something and purging a room keep the indexes of the relay. */
module RelaySteps {
  import opened Basics
  import opened RoomRelay

  /** The recipients are distinct others without a copy yet, and Telegram's ids are new. */
  ghost predicate Ready(rel: Relay, l: Logical, us: seq<UserId>, fates: seq<Fate>) {
    && |us| == |fates| && l.sender !in us && l.room !in rel.purged
    && (forall i, j | 0 <= i < j < |us| :: us[i] != us[j])
    && (forall i | 0 <= i < |us| :: Fresh(rel, us[i], NewIds(fates[i])) && rel.Ids(l, us[i]) == [])
    && Fresh(rel, l.sender, [l.id]) && rel.Ids(l, l.sender) == []
  }

  /** Only message `l` gained copies, all of them new. */
  ghost predicate Grows(rel: Relay, rel': Relay, l: Logical) {
    && (forall c | c in rel.sent :: Get(rel'.sent, c) == Get(rel.sent, c) && (c in rel'.strays <==> c in rel.strays))
    && (forall c | c in rel'.sent && c !in rel.sent :: rel'.sent[c] == l)
    && (forall m | m in rel'.recipients :: m in rel.recipients || m == l)
    && (forall m, u | m != l :: rel'.Ids(m, u) == rel.Ids(m, u))
    && rel'.purged == rel.purged && rel'.offers == rel.offers
    && (forall r | r != l.room :: rel'.Users(r) == rel.Users(r))
  }

  lemma GrowsTransitive(a: Relay, b: Relay, c: Relay, l: Logical)
    requires Grows(a, b, l) && Grows(b, c, l)
    ensures Grows(a, c, l)
  {
    hide Relay.Ids, Relay.Users;
    forall x | x in a.sent ensures Get(c.sent, x) == Get(a.sent, x) && (x in c.strays <==> x in a.strays) {
      assert Get(b.sent, x) == Get(a.sent, x);
    }
    forall x | x in c.sent && x !in a.sent ensures c.sent[x] == l {
      if x in b.sent { assert Get(c.sent, x) == Get(b.sent, x); }
    }
  }

  lemma RecordGrows(rel: Relay, l: Logical, u: UserId, ids: seq<MsgId>)
    requires Fresh(rel, u, ids) && Indexes(rel)
    ensures Grows(rel, Record(rel, l, u, ids), l)
  {
    hide Record, Relay.Ids, Relay.OriginOf, Relay.History, Relay.Users;
    RecordAdds(rel, l, u, ids);
    var rel' := Record(rel, l, u, ids);
    forall c | c in rel.sent ensures Get(rel'.sent, c) == Get(rel.sent, c) { assert c == Copy(c.chat, c.id); }
    forall c | c in rel'.sent && c !in rel.sent
      ensures rel'.sent[c] == l
    {
      assert Get(rel'.sent, c).Some? && Get(rel.sent, c).None?;
    }
  }

  lemma SameKeys(rel: Relay, rel': Relay)
    requires rel'.recipients == rel.recipients && rel'.origin == rel.origin
    ensures forall m, v :: rel'.Ids(m, v) == rel.Ids(m, v)
    ensures forall r, v, i :: rel'.OriginOf(r, v, i) == rel.OriginOf(r, v, i)
    ensures rel'.history == rel.history ==> forall r, v :: rel'.History(r, v) == rel.History(r, v)
    ensures rel'.historyUsers == rel.historyUsers ==> forall r :: rel'.Users(r) == rel.Users(r)
  {
  }

  lemma StrayKeeps(rel: Relay, l: Logical, u: UserId, id: MsgId)
    requires Indexes(rel) && Histories(rel) && Copy(u, id) !in rel.sent
    ensures var rel' := SendTo(rel, l, u, LabelOnly(id));
            Indexes(rel') && Histories(rel') && Grows(rel, rel', l) && forall m, v :: rel'.Ids(m, v) == rel.Ids(m, v)
  {
    var rel' := SendTo(rel, l, u, LabelOnly(id));
    assert forall c :: rel'.Recorded(c) <==> rel.Recorded(c);
    assert forall c | rel.Recorded(c) :: rel'.sent[c] == rel.sent[c];
    SameKeys(rel, rel');
    hide SendTo, Relay.Ids, Relay.OriginOf, Relay.History, Relay.Users, Relay.Recorded;
    forall m, c ensures IdsOk(rel', m, c) && OriginOk(rel', m, c) { assert IdsOk(rel, m, c) && OriginOk(rel, m, c); }
    forall r, c ensures HistoryOk(rel', r, c) { assert HistoryOk(rel, r, c); }
  }

  /** One recipient served: it has the ids it was delivered, nobody else has new ones. */
  lemma SendKeeps(rel: Relay, l: Logical, u: UserId, fate: Fate)
    requires Indexes(rel) && Histories(rel) && l.room !in rel.purged && rel.Ids(l, u) == [] && Fresh(rel, u, NewIds(fate))
    ensures var rel' := SendTo(rel, l, u, fate);
            && Indexes(rel') && Histories(rel') && Grows(rel, rel', l)
            && (forall v :: rel'.Ids(l, v) == if v == u && fate.Delivered? then fate.ids else rel.Ids(l, v))
            && (forall v, ids :: v != u && Fresh(rel, v, ids) ==> Fresh(rel', v, ids))
  {
    var rel' := SendTo(rel, l, u, fate);
    match fate {
      case Failed => SameGrows(rel, l);
      case LabelOnly(id) =>
        assert id in NewIds(fate);
        StrayKeeps(rel, l, u, id);
      case Delivered(ids) =>
        RecordKeeps(rel, l, u, ids);
        RecordGrows(rel, l, u, ids);
        RecordAdds(rel, l, u, ids);
    }
    forall v, ids | v != u && Fresh(rel, v, ids) ensures Fresh(rel', v, ids) {
      forall id | id in ids ensures Copy(v, id) !in rel'.sent { OtherChatsUntouched(rel, l, u, fate, Copy(v, id)); }
    }
  }

  lemma SameGrows(rel: Relay, l: Logical)
    ensures Grows(rel, rel, l)
  {
  }

  lemma OtherChatsUntouched(rel: Relay, l: Logical, u: UserId, fate: Fate, c: Copy)
    requires c.chat != u
    ensures c in SendTo(rel, l, u, fate).sent <==> c in rel.sent
  {
    if fate.Delivered? { SentEffect(rel, l, u, fate.ids, c); }
  }

  /** Every recipient has exactly what was delivered to it. */
  lemma {:induction false} FanOutKeeps(rel: Relay, l: Logical, us: seq<UserId>, fates: seq<Fate>)
    requires Indexes(rel) && Histories(rel) && Ready(rel, l, us, fates)
    ensures var rel' := FanOut(rel, l, us, fates);
            && Indexes(rel') && Histories(rel') && Grows(rel, rel', l)
            && (forall v | v !in us :: rel'.Ids(l, v) == rel.Ids(l, v))
            && (forall i | 0 <= i < |us| :: rel'.Ids(l, us[i]) == if fates[i].Delivered? then fates[i].ids else [])
            && Fresh(rel', l.sender, [l.id])
    decreases |us|
  {
    hide Indexes, Histories, Grows, SendTo, Relay.Ids, Fresh, NewIds;
    if us == [] {
      SameGrows(rel, l);
    } else {
      var rel1 := SendTo(rel, l, us[0], fates[0]);
      SendKeeps(rel, l, us[0], fates[0]);
      assert forall i | 0 <= i < |us[1..]| :: us[1..][i] == us[i + 1] && fates[1..][i] == fates[i + 1];
      assert rel1.purged == rel.purged by { GrowsPurged(rel, rel1, l); }
      FanOutKeeps(rel1, l, us[1..], fates[1..]);
      var rel' := FanOut(rel, l, us, fates);
      GrowsTransitive(rel, rel1, rel', l);
      forall i | 0 <= i < |us| ensures rel'.Ids(l, us[i]) == if fates[i].Delivered? then fates[i].ids else [] {
        if i > 0 { assert us[1..][i - 1] == us[i]; } else { assert us[0] !in us[1..]; }
      }
    }
  }

  lemma GrowsPurged(rel: Relay, rel': Relay, l: Logical)
    requires Grows(rel, rel', l)
    ensures rel'.purged == rel.purged
  {
  }

  /** What saying something achieves: each member has exactly the copies that were delivered
      to it, the author its own, and no other message is affected. */
  lemma SayKeeps(rel: Relay, l: Logical, us: seq<UserId>, fates: seq<Fate>)
    requires Indexes(rel) && Histories(rel) && Settled(rel) && Ready(rel, l, us, fates)
    ensures var rel' := Say(rel, l, us, fates);
            && Indexes(rel') && Histories(rel') && Settled(rel') && Grows(rel, rel', l)
            && (forall i | 0 <= i < |us| :: rel'.Ids(l, us[i]) == if fates[i].Delivered? then fates[i].ids else [])
            && rel'.Ids(l, l.sender) == [l.id]
            && (forall v | v !in us && v != l.sender :: rel'.Ids(l, v) == rel.Ids(l, v))
  {
    hide FanOut, Record, Relay.Ids, Indexes, Histories, Settled, Grows, Fresh;
    FanOutKeeps(rel, l, us, fates);
    var rel1 := FanOut(rel, l, us, fates);
    GrowsPurged(rel, rel1, l);
    RecordKeeps(rel1, l, l.sender, [l.id]);
    RecordGrows(rel1, l, l.sender, [l.id]);
    forall v ensures Record(rel1, l, l.sender, [l.id]).Ids(l, v) == if v == l.sender then [l.id] else rel1.Ids(l, v) {
      IdsEffect(rel1, l, l.sender, [l.id], l, v);
    }
    var rel' := Say(rel, l, us, fates);
    GrowsTransitive(rel, rel1, rel', l);
    SaySettles(rel, rel', l);
  }

  lemma SaySettles(rel: Relay, rel': Relay, l: Logical)
    requires Settled(rel) && Grows(rel, rel', l) && Indexes(rel') && rel'.Ids(l, l.sender) == [l.id]
    ensures Settled(rel')
  {
    hide Relay.Ids, Relay.Users;
    assert IdsOk(rel', l, Copy(l.sender, l.id));
    assert Copy(l.sender, l.id) in rel'.sent;
    forall m | m in rel'.recipients ensures rel'.sent.Keys >= {Copy(m.sender, m.id)} {
      if m != l { assert Get(rel'.sent, Copy(m.sender, m.id)) == Get(rel.sent, Copy(m.sender, m.id)); }
    }
    forall c | c in rel'.sent ensures Copy(rel'.sent[c].sender, rel'.sent[c].id) in rel'.sent {
      if c in rel.sent {
        assert Get(rel'.sent, c) == Get(rel.sent, c);
        var o := Copy(rel.sent[c].sender, rel.sent[c].id);
        assert Get(rel'.sent, o) == Get(rel.sent, o);
      }
    }
  }

  // ---------------------------------------------------------------- what a reply quotes

  /** A reply to a message, on whichever copy of it, quotes for each recipient the last of the
      ids delivered to it, for the author the author's own message, and for a recipient that
      got nothing nothing. */
  lemma ReplyQuotesTheLastCopy(rel: Relay, l: Logical, us: seq<UserId>, fates: seq<Fate>, c: Copy)
    requires Indexes(rel) && Histories(rel) && Settled(rel) && Ready(rel, l, us, fates)
    requires var rel' := Say(rel, l, us, fates); rel'.Recorded(c) && rel'.sent[c] == l
    ensures var rel' := Say(rel, l, us, fates);
            && QuoteFor(rel', l.room, c.chat, c.id, l.sender) == Some(l.id)
            && forall i | 0 <= i < |us| :: QuoteFor(rel', l.room, c.chat, c.id, us[i]) ==
                 if fates[i].Delivered? && fates[i].ids != [] then Some(fates[i].ids[|fates[i].ids| - 1]) else None
  {
    hide Histories, Settled, Fresh, NewIds, FanOut, Record, Relay.Ids, Relay.OriginOf, IdsOk, OriginOk, NoRepeats;
    SayKeeps(rel, l, us, fates);
    var rel' := Say(rel, l, us, fates);
    assert rel'.OriginOf(l.room, c.chat, c.id) == Some(Origin(l.sender, l.id)) by { LeadsBack(rel', l, c); }
  }

  lemma LeadsBack(rel: Relay, l: Logical, c: Copy)
    requires Indexes(rel) && rel.Recorded(c) && rel.sent[c] == l
    ensures rel.OriginOf(l.room, c.chat, c.id) == Some(Origin(l.sender, l.id))
  {
    assert OriginOk(rel, l, c);
  }

  // ---------------------------------------------------------------- what "delete" misses

  /** No send ended with the label alone. */
  predicate AllWhole(fates: seq<Fate>) {
    forall f | f in fates :: !f.LabelOnly?
  }

  /** One send leaves a stray of its message just when the label gets through alone. */
  lemma SendStrays(rel: Relay, l: Logical, u: UserId, fate: Fate)
    requires Indexes(rel) && Fresh(rel, u, NewIds(fate))
    ensures Strayless(SendTo(rel, l, u, fate), l) <==> Strayless(rel, l) && !fate.LabelOnly?
  {
    var rel' := SendTo(rel, l, u, fate);
    match fate {
      case Failed =>
      case LabelOnly(id) => assert Stray(rel', l, Copy(u, id));
      case Delivered(ids) => RecordStrays(rel, l, u, ids);
    }
  }

  /** Copies written down are no strays, and leave those there are. */
  lemma RecordStrays(rel: Relay, l: Logical, u: UserId, ids: seq<MsgId>)
    requires Indexes(rel) && Fresh(rel, u, ids)
    ensures Strayless(Record(rel, l, u, ids), l) <==> Strayless(rel, l)
  {
    hide Record, Relay.Ids, Relay.OriginOf, Relay.Recorded;
    RestEffect(rel, l, u, ids);
    forall c ensures Stray(Record(rel, l, u, ids), l, c) <==> Stray(rel, l, c) {
      SentEffect(rel, l, u, ids, c);
      assert c == Copy(c.chat, c.id);
    }
  }

  lemma {:induction false} FanOutStrays(rel: Relay, l: Logical, us: seq<UserId>, fates: seq<Fate>)
    requires Indexes(rel) && Histories(rel) && Ready(rel, l, us, fates)
    ensures Strayless(FanOut(rel, l, us, fates), l) <==> Strayless(rel, l) && AllWhole(fates)
    decreases |us|
  {
    hide Indexes, Histories, Grows, SendTo, Relay.Ids, Fresh, NewIds, Strayless;
    if us != [] {
      var rel1 := SendTo(rel, l, us[0], fates[0]);
      SendKeeps(rel, l, us[0], fates[0]);
      SendStrays(rel, l, us[0], fates[0]);
      assert forall i | 0 <= i < |us[1..]| :: us[1..][i] == us[i + 1] && fates[1..][i] == fates[i + 1];
      assert rel1.purged == rel.purged by { GrowsPurged(rel, rel1, l); }
      FanOutStrays(rel1, l, us[1..], fates[1..]);
      assert AllWhole(fates) <==> !fates[0].LabelOnly? && AllWhole(fates[1..]) by { assert fates == [fates[0]] + fates[1..]; }
    }
  }

  lemma NewIsStrayless(rel: Relay, l: Logical)
    requires Settled(rel) && Copy(l.sender, l.id) !in rel.sent
    ensures Strayless(rel, l)
  {
    forall c ensures !Stray(rel, l, c) {}
  }

  /** Saying a new message leaves a stray of it exactly when some send got only a label through. */
  lemma SayStrays(rel: Relay, l: Logical, us: seq<UserId>, fates: seq<Fate>)
    requires Indexes(rel) && Histories(rel) && Settled(rel) && Ready(rel, l, us, fates)
    ensures Strayless(Say(rel, l, us, fates), l) <==> AllWhole(fates)
  {
    hide FanOut, Record, Relay.Ids, Indexes, Histories, Settled, Grows, Strayless, AllWhole;
    NewIsStrayless(rel, l);
    FanOutKeeps(rel, l, us, fates);
    FanOutStrays(rel, l, us, fates);
    RecordStrays(FanOut(rel, l, us, fates), l, l.sender, [l.id]);
  }

  /** The exact condition. Once a message is said, "delete" by its author or the owner, on
      whichever recorded copy, reaches every copy there is exactly when no send ended with
      the label alone. */
  lemma DeleteReachesAllExactly(rel: Relay, l: Logical, us: seq<UserId>, fates: seq<Fate>, owner: UserId, c: Copy)
    requires Indexes(rel) && Histories(rel) && Settled(rel) && Ready(rel, l, us, fates)
    requires var rel' := Say(rel, l, us, fates);
             rel'.Recorded(c) && rel'.sent[c] == l && (c.chat == l.sender || c.chat == owner)
    ensures var rel' := Say(rel, l, us, fates);
            var t := DeleteTargets(rel', l.room, owner, c.chat, c.id);
            t.Done? && ((forall d | Get(rel'.sent, d) == Some(l) :: d in t.value) <==> AllWhole(fates))
  {
    hide Indexes, Histories, Settled, Fresh, NewIds, Relay.Ids, FanOut, Record, DeleteTargets, Stray, AllWhole;
    SayKeeps(rel, l, us, fates);
    SayStrays(rel, l, us, fates);
    assert c == Copy(c.chat, c.id);
    var rel' := Say(rel, l, us, fates);
    DeleteMissesStrays(rel', l, owner, c.chat, c.id);
    assert forall d | Stray(rel', l, d) :: Get(rel'.sent, d) == Some(l) by { StraysAreCopies(rel', l); }
  }

  lemma StraysAreCopies(rel: Relay, l: Logical)
    ensures forall d | Stray(rel, l, d) :: Get(rel.sent, d) == Some(l)
  {
  }

  /** A message with a new id is ready to be said, its recipients distinct others and the
      ids in the fates new too. */
  lemma NewMessageIsReady(rel: Relay, l: Logical, us: seq<UserId>, fates: seq<Fate>)
    requires Indexes(rel) && Settled(rel) && Copy(l.sender, l.id) !in rel.sent
    requires |us| == |fates| && l.sender !in us && l.room !in rel.purged
    requires forall i, j | 0 <= i < j < |us| :: us[i] != us[j]
    requires forall i | 0 <= i < |us| :: Fresh(rel, us[i], NewIds(fates[i]))
    ensures Ready(rel, l, us, fates)
  {
    assert l !in rel.recipients;
  }

  // ---------------------------------------------------------------- purging

  /** A deleted room is on offer to be purged if anything was recorded for it, and then from
      the chats of its members and of everybody with a history; other offers stand. */
  lemma OfferOutcome(rel: Relay, room: RoomId, members: set<UserId>)
    ensures var rel' := Offer(rel, room, members);
            && rel' == rel.(offers := rel'.offers)
            && (forall r :: Get(rel'.offers, r) ==
                  if r == room && rel.Users(r) != {} then Some(members + rel.Users(r)) else Get(rel.offers, r))
  {
  }

  /** An offer that has lapsed purges nothing; other offers stand. */
  lemma LapseOutcome(rel: Relay, room: RoomId)
    ensures var rel' := Lapse(rel, room);
            && rel' == rel.(offers := rel'.offers) && PurgeTargets(rel', room) == {} && Purge(rel', room) == rel'
            && forall r | r != room :: Get(rel'.offers, r) == Get(rel.offers, r)
  {
  }

  lemma PurgedHistory(rel: Relay, room: RoomId, r: RoomId, u: UserId)
    requires room in rel.offers && rel.Users(room) <= rel.offers[room]
    requires rel.History(room, u) != [] ==> u in rel.Users(room)
    ensures Purge(rel, room).History(r, u) == if r == room then [] else rel.History(r, u)
    ensures Purge(rel, room).Users(r) == if r == room then {} else rel.Users(r)
  {
    var gone := set v | v in rel.offers[room] :: (room, v);
    assert (r, u) in gone <==> r == room && u in rel.offers[room];
  }

  lemma PurgeKeeps(rel: Relay, room: RoomId)
    requires Indexes(rel) && Histories(rel) && Settled(rel)
    requires room in rel.offers && rel.Users(room) <= rel.offers[room]
    ensures var rel' := Purge(rel, room);
            && Indexes(rel') && Histories(rel') && Settled(rel')
            && (forall r, u :: rel'.History(r, u) == if r == room then [] else rel.History(r, u))
            && (forall r :: rel'.Users(r) == if r == room then {} else rel.Users(r))
  {
    hide Purge, Relay.Ids, Relay.OriginOf, Relay.History, Relay.Users, IdsOk, OriginOk, HistoryOk, NoRepeats;
    var rel' := Purge(rel, room);
    PurgeLeavesIndexes(rel, room);
    forall r, u ensures rel'.History(r, u) == if r == room then [] else rel.History(r, u) { PurgedHistory(rel, room, r, u); }
    forall r ensures rel'.Users(r) == if r == room then {} else rel.Users(r) { PurgedHistory(rel, room, r, ""); }
    SameIndexes(rel, rel');
    PurgedHistories(rel, rel', room);
  }

  lemma SameIndexes(rel: Relay, rel': Relay)
    requires rel'.recipients == rel.recipients && rel'.origin == rel.origin && rel'.sent == rel.sent && rel'.strays == rel.strays
    requires Indexes(rel) && Settled(rel)
    ensures Indexes(rel') && Settled(rel')
  {
    SameKeys(rel, rel');
    hide Relay.Ids, Relay.OriginOf, NoRepeats;
    forall m, c ensures IdsOk(rel', m, c) && OriginOk(rel', m, c) { assert IdsOk(rel, m, c) && OriginOk(rel, m, c); }
  }

  lemma PurgedHistories(rel: Relay, rel': Relay, room: RoomId)
    requires rel'.sent == rel.sent && rel'.strays == rel.strays && rel'.purged == rel.purged + {room}
    requires forall r, u :: rel'.History(r, u) == if r == room then [] else rel.History(r, u)
    requires forall r :: rel'.Users(r) == if r == room then {} else rel.Users(r)
    requires Histories(rel)
    ensures Histories(rel')
  {
    hide Relay.History, Relay.Users;
    forall r, c ensures HistoryOk(rel', r, c) { assert HistoryOk(rel, r, c); }
  }

  lemma PurgeLeavesIndexes(rel: Relay, room: RoomId)
    requires room in rel.offers
    ensures var rel' := Purge(rel, room);
            && rel'.recipients == rel.recipients && rel'.origin == rel.origin && rel'.sent == rel.sent && rel'.strays == rel.strays
            && rel'.offers == rel.offers && rel'.purged == rel.purged + {room}
  {
  }

  /** A first purge tries to delete exactly the copies ever written down for the room, of
      former members too; a second one finds nothing. */
  lemma PurgeReachesAll(rel: Relay, room: RoomId)
    requires Histories(rel) && room in rel.offers && rel.Users(room) <= rel.offers[room]
    ensures forall c :: c in PurgeTargets(rel, room) <==> room !in rel.purged && rel.Recorded(c) && rel.sent[c].room == room
  {
    forall c ensures c in PurgeTargets(rel, room) <==> room !in rel.purged && rel.Recorded(c) && rel.sent[c].room == room {
      assert HistoryOk(rel, room, c);
      assert c == Copy(c.chat, c.id);
      if c.id in rel.History(room, c.chat) { assert rel.History(room, c.chat) != []; }
    }
  }

  /** A sticker of "a" whose label reached "b" and whose picture did not: deleting the
      message leaves the label behind. */
  lemma StrayLabelStays()
    ensures var l := Logical(1, "a", 1);
            var rel := Say(NO_MESSAGES, l, ["b"], [LabelOnly(7)]);
            var t := DeleteTargets(rel, 1, "a", "a", 1);
            t.Done? && Get(rel.sent, Copy("b", 7)) == Some(l) && Copy("b", 7) !in t.value
  {
    var l := Logical(1, "a", 1);
    var rel1 := SendTo(NO_MESSAGES, l, "b", LabelOnly(7));
    assert ["b"][1..] == [] && [LabelOnly(7)][1..] == [];
    var rel := Say(NO_MESSAGES, l, ["b"], [LabelOnly(7)]);
    assert rel == Record(rel1, l, "a", [1]);
    OriginEffect(rel1, l, "a", [1], 1, "a", 1);
    SentEffect(rel1, l, "a", [1], Copy("b", 7));
    IdsEffect(rel1, l, "a", [1], l, "b");
  }
}
