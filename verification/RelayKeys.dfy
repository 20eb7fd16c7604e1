/** The relay's Redis keys, changed in place as messages are fanned out, deleted, edited and
    purged. */
module RelayStore {
  import opened Basics
  import opened RoomRelay
  import opened RelaySteps

  class RelayKeys {
    var recipients: map<Logical, map<UserId, seq<MsgId>>>
    var origin: map<Local, Origin>
    var history: map<(RoomId, UserId), seq<MsgId>>
    var historyUsers: map<RoomId, set<UserId>>
    var offers: map<RoomId, set<UserId>>
    ghost var sent: map<Copy, Logical>
    ghost var strays: set<Copy>
    ghost var purged: set<RoomId>

    ghost function Model(): Relay reads this {
      Relay(recipients, origin, history, historyUsers, offers, sent, strays, purged)
    }

    constructor ()
      ensures Model() == NO_MESSAGES
    {
      recipients, origin, history, historyUsers, offers := map[], map[], map[], map[], map[];
      sent, strays, purged := map[], {}, {};
    }

    method GetOrigin(room: RoomId, viewer: UserId, id: MsgId) returns (o: Option<Origin>)
      ensures o == Model().OriginOf(room, viewer, id)
    {
      o := Get(origin, Local(room, viewer, id));
    }

    method GetRecipients(l: Logical) returns (m: map<UserId, seq<MsgId>>)
      ensures m == if l in recipients then recipients[l] else map[]
    {
      m := if l in recipients then recipients[l] else map[];
    }

    method RecordRoomMessage(room: RoomId, u: UserId, id: MsgId)
      modifies this`history, this`historyUsers
      ensures Model() == Push(old(Model()), room, u, [id])
    {
      history := history[(room, u) := (if (room, u) in history then history[(room, u)] else []) + [id]];
      historyUsers := historyUsers[room := (if room in historyUsers then historyUsers[room] else {}) + {u}];
    }

    /** The delivered ids are stored under the message, then each is mapped back and put on
        the recipient's history. */
    method RecordCopies(l: Logical, u: UserId, ids: seq<MsgId>)
      modifies this
      ensures Model() == Record(old(Model()), l, u, ids)
    {
      var copies := GetRecipients(l);
      recipients := recipients[l := copies[u := ids]];
      ghost var rel := Model();
      assert Record(old(Model()), l, u, ids) == Note(rel, l, u, ids);
      hide Record, Note;
      NoteNothing(rel, l, u);
      for i := 0 to |ids|
        invariant Model() == Note(rel, l, u, ids[..i])
      {
        assert ids[..i + 1] == ids[..i] + [ids[i]];
        NoteOneMore(rel, l, u, ids[..i], ids[i]);
        origin := origin[Local(l.room, u, ids[i]) := Origin(l.sender, l.id)];
        sent := sent[Copy(u, ids[i]) := l];
        RecordRoomMessage(l.room, u, ids[i]);
      }
      assert ids[..|ids|] == ids;
    }

    method FindQuote(room: RoomId, o: Option<Origin>, u: UserId) returns (quote: Option<MsgId>)
      ensures quote == QuoteOf(Model(), room, o, u)
    {
      if o.None? { return None; }
      var copies := GetRecipients(Logical(room, o.value.sender, o.value.id));
      if u !in copies || copies[u] == [] { return None; }
      return Some(copies[u][|copies[u]| - 1]);
    }

    /** One send and what is written down after it. */
    method SendOne(l: Logical, u: UserId, fate: Fate) returns (delivered: bool)
      modifies this
      ensures Model() == SendTo(old(Model()), l, u, fate) && delivered == fate.Delivered?
    {
      match fate
      case Failed => return false;
      case LabelOnly(id) =>
        sent := sent[Copy(u, id) := l];
        strays := strays + {Copy(u, id)};
        return false;
      case Delivered(ids) =>
        RecordCopies(l, u, ids);
        return true;
    }

    /** A copy for every other member, in order; a failed send is skipped. */
    method SendToAll(l: Logical, us: seq<UserId>, fates: seq<Fate>, o: Option<Origin>)
      returns (delivered: bool, quotes: seq<Option<MsgId>>)
      requires |us| == |fates| && (o.Some? ==> Logical(l.room, o.value.sender, o.value.id) != l)
      modifies this
      ensures Model() == FanOut(old(Model()), l, us, fates)
      ensures delivered <==> AnyDelivered(fates)
      ensures |quotes| == |us| && forall i | 0 <= i < |us| :: quotes[i] == QuoteOf(old(Model()), l.room, o, us[i])
    {
      ghost var rel := Model();
      assert us[0..] == us && fates[0..] == fates;
      hide SendTo, QuoteOf, OthersSame, FanOut, AnyDelivered;
      NobodyYet(fates);
      OthersSameAtFirst(rel, l);
      delivered, quotes := false, [];
      for i := 0 to |us|
        invariant FanOut(rel, l, us, fates) == FanOut(Model(), l, us[i..], fates[i..])
        invariant OthersSame(rel, Model(), l)
        invariant delivered <==> AnyDelivered(fates[..i])
        invariant |quotes| == i && forall j | 0 <= j < i :: quotes[j] == QuoteOf(rel, l.room, o, us[j])
      {
        assert us[i..][1..] == us[i + 1..] && fates[i..][1..] == fates[i + 1..];
        var quote := FindQuote(l.room, o, us[i]);
        QuoteSame(rel, Model(), l, o, us[i]);
        quotes := quotes + [quote];
        SendSame(rel, Model(), l, us[i], fates[i]);
        FanOutNext(Model(), l, us[i..], fates[i..]);
        OneMoreFate(fates, i);
        var ok := SendOne(l, us[i], fates[i]);
        if ok { delivered := true; }
      }
      FanOutDone(Model(), l, us[|us|..], fates[|us|..]);
      assert fates[..|us|] == fates;
    }

    /** One message to every other member. `quotes` are the messages quoted when the author
        replied to `replied`. */
    method RelayNewMessage(l: Logical, us: seq<UserId>, fates: seq<Fate>, replied: Option<MsgId>)
      returns (delivered: bool, quotes: seq<Option<MsgId>>)
      requires Indexes(Model()) && |us| == |fates| && Ready(Model(), l, us, fates)
      modifies this
      ensures Model() == Say(old(Model()), l, us, fates)
      ensures delivered <==> AnyDelivered(fates)
      ensures |quotes| == |us| && forall i | 0 <= i < |us| ::
        quotes[i] == if replied.None? then None else QuoteFor(old(Model()), l.room, l.sender, replied.value, us[i])
    {
      ghost var rel := Model();
      var o := None;
      if replied.Some? { o := GetOrigin(l.room, l.sender, replied.value); }
      OriginIsOther(rel, l, us, fates, o, replied);
      assert forall u ::
          QuoteOf(rel, l.room, o, u) == if replied.None? then None else QuoteFor(rel, l.room, l.sender, replied.value, u);
      hide Record, QuoteOf, QuoteFor, Indexes, Ready, Relay.OriginOf, FanOut, AnyDelivered;
      delivered, quotes := SendToAll(l, us, fates, o);
      RecordCopies(l, l.sender, [l.id]);
    }

    /** "delete" in reply to a message: the attempts, in some order of the recipients. */
    method HandleDeleteCommand(room: RoomId, owner: UserId, u: UserId, replied: MsgId) returns (outcome: Command<seq<Copy>>)
      requires Indexes(Model())
      ensures var t := DeleteTargets(Model(), room, owner, u, replied);
              && (outcome.Unknown? <==> t.Unknown?) && (outcome.Refused? <==> t.Refused?)
              && (outcome.Done? ==> ExactlyOnce(outcome.value, t.value))
    {
      var o := GetOrigin(room, u, replied);
      if o.None? { return Unknown; }
      if o.value.sender != u && u != owner { return Refused; }
      var attempts := AllCopies(Logical(room, o.value.sender, o.value.id), {});
      return Done(attempts);
    }

    /** The nested loops over the copies of a message, leaving out some chats. */
    method AllCopies(l: Logical, skip: set<UserId>) returns (attempts: seq<Copy>)
      requires Indexes(Model())
      ensures ExactlyOnce(attempts, set c | c in CopiesOf(Model(), l) && c.chat !in skip)
    {
      var copies := GetRecipients(l);
      var todo := copies.Keys;
      attempts := [];
      while todo != {}
        invariant todo <= copies.Keys
        invariant ExactlyOnce(attempts, set c | c in CopiesOf(Model(), l) && c.chat !in skip && c.chat !in todo)
        decreases todo
      {
        var v :| v in todo;
        todo := todo - {v};
        ghost var before := set c | c in CopiesOf(Model(), l) && c.chat !in skip && c.chat !in todo && c.chat != v;
        if v in skip {
          assert before == set c | c in CopiesOf(Model(), l) && c.chat !in skip && c.chat !in todo;
        } else {
          assert NoRepeats(Model().Ids(l, v));
          attempts := AppendCopies(attempts, v, copies[v], before);
          assert before + CopiesIn(v, copies[v]) == set c | c in CopiesOf(Model(), l) && c.chat !in skip && c.chat !in todo;
        }
      }
    }

    /** An edit of one's own message goes to everybody else's copies. */
    method RelayRoomEdit(room: RoomId, u: UserId, id: MsgId) returns (outcome: Command<seq<Copy>>)
      requires Indexes(Model())
      ensures var t := EditTargets(Model(), room, u, id);
              (outcome.Done? <==> t.Done?) && !outcome.Refused? && (outcome.Done? ==> ExactlyOnce(outcome.value, t.value))
    {
      var o := GetOrigin(room, u, id);
      if o != Some(Origin(u, id)) { return Unknown; }
      var attempts := AllCopies(Logical(room, u, id), {u});
      assert (set c | c in CopiesOf(Model(), Logical(room, u, id)) && c.chat !in {u})
          == (set c | c in CopiesOf(Model(), Logical(room, u, id)) && c.chat != u);
      return Done(attempts);
    }

    method OfferRoomHistoryPurge(room: RoomId, members: set<UserId>)
      modifies this
      ensures Model() == Offer(old(Model()), room, members)
    {
      var users := if room in historyUsers then historyUsers[room] else {};
      if users == {} { return; }
      offers := offers[room := members + users];
    }

    /** Every listed user's history is popped and its messages deleted one by one. */
    method PurgeHistory(room: RoomId) returns (attempts: seq<Copy>)
      requires Histories(Model())
      modifies this
      ensures Model() == Purge(old(Model()), room) && ExactlyOnce(attempts, PurgeTargets(old(Model()), room))
    {
      attempts := [];
      if room !in offers { return; }
      ghost var rel := Model();
      var listed := offers[room];
      var todo := listed;
      while todo != {}
        invariant todo <= listed
        invariant Model() == rel.(history := rel.history - (set u | u in listed - todo :: (room, u)))
        invariant ExactlyOnce(attempts, PopTargets(rel, room, listed - todo))
        decreases todo
      {
        var u :| u in todo;
        ghost var done := listed - todo;
        todo := todo - {u};
        assert listed - todo == done + {u};
        var ids := if (room, u) in history then history[(room, u)] else [];
        NotPoppedYet(rel, room, done, u);
        assert ids == rel.History(room, u) && NoRepeats(ids);
        history := history - {(room, u)};
        attempts := AppendCopies(attempts, u, ids, PopTargets(rel, room, done));
        PopOneMore(rel, room, done, u);
      }
      assert listed - todo == listed;
      historyUsers := historyUsers - {room};
      purged := purged + {room};
    }
  }

  // ---------------------------------------------------------------- attempts

  ghost predicate ExactlyOnce(attempts: seq<Copy>, targets: set<Copy>) {
    (forall c :: c in attempts <==> c in targets) && (forall i, j | 0 <= i < j < |attempts| :: attempts[i] != attempts[j])
  }

  function CopiesIn(u: UserId, ids: seq<MsgId>): set<Copy> {
    set id | id in ids :: Copy(u, id)
  }

  /** The inner loop over the ids of one chat. */
  method AppendCopies(attempts: seq<Copy>, u: UserId, ids: seq<MsgId>, ghost done: set<Copy>) returns (more: seq<Copy>)
    requires ExactlyOnce(attempts, done) && NoRepeats(ids) && forall c | c in done :: c.chat != u
    ensures ExactlyOnce(more, done + CopiesIn(u, ids))
  {
    more := attempts;
    assert CopiesIn(u, ids[..0]) == {};
    for i := 0 to |ids|
      invariant ExactlyOnce(more, done + CopiesIn(u, ids[..i]))
    {
      var c := Copy(u, ids[i]);
      assert c !in done + CopiesIn(u, ids[..i]) by { assert forall k | 0 <= k < i :: ids[k] != ids[i]; }
      OneMoreAttempt(more, done + CopiesIn(u, ids[..i]), c);
      more := more + [c];
      assert ids[..i + 1] == ids[..i] + [ids[i]];
      assert done + CopiesIn(u, ids[..i]) + {c} == done + CopiesIn(u, ids[..i + 1]);
    }
    assert ids[..|ids|] == ids;
  }

  lemma OneMoreAttempt(attempts: seq<Copy>, done: set<Copy>, c: Copy)
    requires ExactlyOnce(attempts, done) && c !in done
    ensures ExactlyOnce(attempts + [c], done + {c})
  {
    assert forall i | 0 <= i < |attempts| :: attempts[i] in attempts;
  }

  // ---------------------------------------------------------------- recording

  lemma PushOneMore(rel: Relay, room: RoomId, u: UserId, ids: seq<MsgId>, id: MsgId)
    ensures Push(Push(rel, room, u, ids), room, u, [id]) == Push(rel, room, u, ids + [id])
  {
    var h := rel.History(room, u);
    assert h + ids + [id] == h + (ids + [id]);
    assert h + [] == h;
    assert rel.Users(room) + {u} + {u} == rel.Users(room) + {u};
  }

  lemma NoteNothing(rel: Relay, l: Logical, u: UserId)
    ensures Note(rel, l, u, []) == rel
  {
  }

  lemma NoteOneMore(rel: Relay, l: Logical, u: UserId, ids: seq<MsgId>, id: MsgId)
    ensures var done := Note(rel, l, u, ids);
            Note(rel, l, u, ids + [id])
            == Push(done.(origin := done.origin[Local(l.room, u, id) := Origin(l.sender, l.id)],
                          sent := done.sent[Copy(u, id) := l]), l.room, u, [id])
  {
    assert (ids + [id])[..|ids|] == ids;
    var rel1 := rel.(origin := LinkBack(rel.origin, l, u, ids + [id]), sent := MarkSent(rel.sent, l, u, ids + [id]));
    PushOneMore(rel1, l.room, u, ids, id);
  }

  /** Nothing written down for other messages changed. */
  ghost predicate OthersSame(rel: Relay, rel': Relay, l: Logical) {
    forall m | m != l :: Get(rel'.recipients, m) == Get(rel.recipients, m)
  }

  predicate AnyDelivered(fates: seq<Fate>) {
    exists i | 0 <= i < |fates| :: fates[i].Delivered?
  }

  lemma NobodyYet(fates: seq<Fate>)
    ensures !AnyDelivered(fates[..0])
  {
  }

  lemma OneMoreFate(fates: seq<Fate>, i: nat)
    requires i < |fates|
    ensures AnyDelivered(fates[..i + 1]) <==> AnyDelivered(fates[..i]) || fates[i].Delivered?
  {
    if AnyDelivered(fates[..i]) {
      var j :| 0 <= j < i && fates[..i][j].Delivered?;
      assert fates[..i + 1][j].Delivered?;
    }
    if fates[i].Delivered? { assert fates[..i + 1][i].Delivered?; }
  }

  lemma FanOutNext(rel: Relay, l: Logical, us: seq<UserId>, fates: seq<Fate>)
    requires |us| == |fates| && us != []
    ensures FanOut(rel, l, us, fates) == FanOut(SendTo(rel, l, us[0], fates[0]), l, us[1..], fates[1..])
  {
    hide SendTo;
  }

  lemma FanOutDone(rel: Relay, l: Logical, us: seq<UserId>, fates: seq<Fate>)
    requires us == [] && fates == []
    ensures FanOut(rel, l, us, fates) == rel
  {
  }

  lemma OthersSameAtFirst(rel: Relay, l: Logical)
    ensures OthersSame(rel, rel, l)
  {
  }

  lemma SendSame(rel: Relay, rel': Relay, l: Logical, u: UserId, fate: Fate)
    requires OthersSame(rel, rel', l)
    ensures OthersSame(rel, SendTo(rel', l, u, fate), l)
  {
    hide LinkBack, MarkSent;
  }

  lemma QuoteSame(rel: Relay, rel': Relay, l: Logical, o: Option<Origin>, u: UserId)
    requires OthersSame(rel, rel', l) && (o.Some? ==> Logical(l.room, o.value.sender, o.value.id) != l)
    ensures QuoteOf(rel', l.room, o, u) == QuoteOf(rel, l.room, o, u)
  {
    if o.Some? {
      var m := Logical(l.room, o.value.sender, o.value.id);
      assert Get(rel'.recipients, m) == Get(rel.recipients, m);
    }
  }

  /** A reply quotes an earlier message, never the one being sent. */
  lemma OriginIsOther(rel: Relay, l: Logical, us: seq<UserId>, fates: seq<Fate>, o: Option<Origin>, replied: Option<MsgId>)
    requires Indexes(rel) && Ready(rel, l, us, fates)
    requires o == if replied.None? then None else rel.OriginOf(l.room, l.sender, replied.value)
    ensures o.Some? ==> Logical(l.room, o.value.sender, o.value.id) != l
  {
    if o.Some? {
      var c := Copy(l.sender, replied.value);
      assert OriginOk(rel, Logical(l.room, o.value.sender, o.value.id), c);
      assert IdsOk(rel, l, c);
    }
  }

  // ---------------------------------------------------------------- purging

  function PopTargets(rel: Relay, room: RoomId, us: set<UserId>): set<Copy> {
    set u, id | u in us && id in rel.History(room, u) :: Copy(u, id)
  }

  lemma NotPoppedYet(rel: Relay, room: RoomId, done: set<UserId>, u: UserId)
    requires u !in done
    ensures Get(rel.history - (set v | v in done :: (room, v)), (room, u)) == Get(rel.history, (room, u))
    ensures rel.history - (set v | v in done :: (room, v)) - {(room, u)} == rel.history - (set v | v in done + {u} :: (room, v))
  {
  }

  lemma PopOneMore(rel: Relay, room: RoomId, done: set<UserId>, u: UserId)
    ensures PopTargets(rel, room, done) + CopiesIn(u, rel.History(room, u)) == PopTargets(rel, room, done + {u})
  {
  }
}
