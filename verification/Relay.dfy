/** Messages relayed inside chat rooms: the two indexes over their copies, and the history
    from which a deleted room's messages are purged. */
module RoomRelay {
  import opened Basics

  type MsgId = int

  /** A message as its author sent it into a room. */
  datatype Logical = Logical(room: RoomId, sender: UserId, id: MsgId)

  /** A message as somebody sees it in a room. */
  datatype Local = Local(room: RoomId, viewer: UserId, id: MsgId)

  datatype Origin = Origin(sender: UserId, id: MsgId)

  /** A message in the chat of one user with the bot; ids are unique within a chat. */
  datatype Copy = Copy(chat: UserId, id: MsgId)

  /** What became of sending a message to one recipient. A sticker follows a label message;
      when only the label gets through, nobody writes its id down. */
  datatype Fate = Failed | LabelOnly(id: MsgId) | Delivered(ids: seq<MsgId>)

  /** `recipients`, `origin`, `history`, `historyUsers` and `offers` are Redis keys. `sent`
      tells which message every copy in a Telegram chat belongs to, `strays` which of them
      were never written down, `purged` which rooms had their history purged; no handler
      reads these three. */
  datatype Relay = Relay(recipients: map<Logical, map<UserId, seq<MsgId>>>, origin: map<Local, Origin>,
                         history: map<(RoomId, UserId), seq<MsgId>>, historyUsers: map<RoomId, set<UserId>>,
                         offers: map<RoomId, set<UserId>>,
                         sent: map<Copy, Logical>, strays: set<Copy>, purged: set<RoomId>)
  {
    /** The ids under which `u` was sent the message. */
    function Ids(l: Logical, u: UserId): seq<MsgId> {
      if l in recipients && u in recipients[l] then recipients[l][u] else []
    }

    function OriginOf(room: RoomId, viewer: UserId, id: MsgId): Option<Origin> {
      Get(origin, Local(room, viewer, id))
    }

    function History(room: RoomId, u: UserId): seq<MsgId> {
      if (room, u) in history then history[(room, u)] else []
    }

    function Users(room: RoomId): set<UserId> {
      if room in historyUsers then historyUsers[room] else {}
    }

    /** A copy that was delivered and written down. */
    predicate Recorded(c: Copy) {
      c in sent && c !in strays
    }
  }

  const NO_MESSAGES := Relay(map[], map[], map[], map[], map[], map[], {}, {})

  // ---------------------------------------------------------------- sending

  function Push(rel: Relay, room: RoomId, u: UserId, ids: seq<MsgId>): Relay {
    if ids == [] then rel else
      rel.(history := rel.history[(room, u) := rel.History(room, u) + ids],
           historyUsers := rel.historyUsers[room := rel.Users(room) + {u}])
  }

  /** Every id leads back to the message. */
  function LinkBack(m: map<Local, Origin>, l: Logical, u: UserId, ids: seq<MsgId>): map<Local, Origin> {
    if ids == [] then m
    else LinkBack(m, l, u, ids[..|ids| - 1])[Local(l.room, u, ids[|ids| - 1]) := Origin(l.sender, l.id)]
  }

  function MarkSent(m: map<Copy, Logical>, l: Logical, u: UserId, ids: seq<MsgId>): map<Copy, Logical> {
    if ids == [] then m else MarkSent(m, l, u, ids[..|ids| - 1])[Copy(u, ids[|ids| - 1]) := l]
  }

  /** The copies with these ids lead back to their message and join the recipient's history. */
  function Note(rel: Relay, l: Logical, u: UserId, ids: seq<MsgId>): Relay {
    Push(rel.(origin := LinkBack(rel.origin, l, u, ids), sent := MarkSent(rel.sent, l, u, ids)), l.room, u, ids)
  }

  /** Writes down the ids under which `u` was sent message `l`. */
  function Record(rel: Relay, l: Logical, u: UserId, ids: seq<MsgId>): Relay {
    var copies := if l in rel.recipients then rel.recipients[l] else map[];
    Note(rel.(recipients := rel.recipients[l := copies[u := ids]]), l, u, ids)
  }

  function SendTo(rel: Relay, l: Logical, u: UserId, fate: Fate): Relay {
    match fate
    case Failed => rel
    case LabelOnly(id) => rel.(sent := rel.sent[Copy(u, id) := l], strays := rel.strays + {Copy(u, id)})
    case Delivered(ids) => Record(rel, l, u, ids)
  }

  function FanOut(rel: Relay, l: Logical, us: seq<UserId>, fates: seq<Fate>): Relay
    requires |us| == |fates|
    decreases |us|
  {
    if us == [] then rel else FanOut(SendTo(rel, l, us[0], fates[0]), l, us[1..], fates[1..])
  }

  /** One message: a copy for every other member, then the author's own. */
  function Say(rel: Relay, l: Logical, us: seq<UserId>, fates: seq<Fate>): Relay
    requires |us| == |fates|
  {
    Record(FanOut(rel, l, us, fates), l, l.sender, [l.id])
  }

  /** The copy of an earlier message that a reply quotes in the chat of `u`. */
  function QuoteOf(rel: Relay, room: RoomId, o: Option<Origin>, u: UserId): Option<MsgId> {
    match o
    case None => None
    case Some(o) =>
      var ids := rel.Ids(Logical(room, o.sender, o.id), u);
      if ids == [] then None else Some(ids[|ids| - 1])
  }

  /** The message a recipient sees quoted when the author replied to `replied`. */
  function QuoteFor(rel: Relay, room: RoomId, author: UserId, replied: MsgId, u: UserId): Option<MsgId> {
    QuoteOf(rel, room, rel.OriginOf(room, author, replied), u)
  }

  // ---------------------------------------------------------------- deleting and editing

  datatype Command<T> = Unknown | Refused | Done(value: T)

  /** The copies written down for a message. */
  function CopiesOf(rel: Relay, l: Logical): set<Copy> {
    set u, id | l in rel.recipients && u in rel.recipients[l] && id in rel.recipients[l][u] :: Copy(u, id)
  }

  /** What replying "delete" to a message tries to delete. */
  function DeleteTargets(rel: Relay, room: RoomId, owner: UserId, u: UserId, replied: MsgId): Command<set<Copy>> {
    match rel.OriginOf(room, u, replied)
    case None => Unknown
    case Some(o) =>
      if o.sender != u && u != owner then Refused
      else Done(CopiesOf(rel, Logical(room, o.sender, o.id)))
  }

  /** What an edit of message `id` by `u` tries to edit. */
  function EditTargets(rel: Relay, room: RoomId, u: UserId, id: MsgId): Command<set<Copy>> {
    if rel.OriginOf(room, u, id) != Some(Origin(u, id)) then Unknown
    else Done(set c | c in CopiesOf(rel, Logical(room, u, id)) && c.chat != u)
  }

  // ---------------------------------------------------------------- purging

  /** A room was deleted: the owner is offered to purge what its members, past and present, got. */
  function Offer(rel: Relay, room: RoomId, members: set<UserId>): Relay {
    if rel.Users(room) == {} then rel else rel.(offers := rel.offers[room := members + rel.Users(room)])
  }

  function PurgeTargets(rel: Relay, room: RoomId): set<Copy> {
    if room !in rel.offers then {} else set u, id | u in rel.offers[room] && id in rel.History(room, u) :: Copy(u, id)
  }

  function Purge(rel: Relay, room: RoomId): Relay {
    if room !in rel.offers then rel else
      rel.(history := rel.history - (set u | u in rel.offers[room] :: (room, u)),
           historyUsers := rel.historyUsers - {room},
           purged := rel.purged + {room})
  }

  function Lapse(rel: Relay, room: RoomId): Relay {
    rel.(offers := rel.offers - {room})
  }

  // ---------------------------------------------------------------- invariant

  ghost predicate NoRepeats(s: seq<MsgId>) {
    forall i, j | 0 <= i < j < |s| :: s[i] != s[j]
  }

  /** The copies written down for a message are its recorded copies. */
  ghost predicate IdsOk(rel: Relay, l: Logical, c: Copy) {
    c.id in rel.Ids(l, c.chat) <==> rel.Recorded(c) && rel.sent[c] == l
  }

  /** A copy leads back to the message it is a copy of, and to no other. */
  ghost predicate OriginOk(rel: Relay, l: Logical, c: Copy) {
    rel.OriginOf(l.room, c.chat, c.id) == Some(Origin(l.sender, l.id)) <==> rel.Recorded(c) && rel.sent[c] == l
  }

  ghost predicate Indexes(rel: Relay) {
    && (forall l, c :: IdsOk(rel, l, c))
    && (forall l, c :: OriginOk(rel, l, c))
    && (forall l, u :: NoRepeats(rel.Ids(l, u)))
    && (forall c | c in rel.strays :: c in rel.sent)
  }

  /** The history of a room holds every recorded copy until it is purged. */
  ghost predicate HistoryOk(rel: Relay, room: RoomId, c: Copy) {
    c.id in rel.History(room, c.chat) <==> room !in rel.purged && rel.Recorded(c) && rel.sent[c].room == room
  }

  ghost predicate Histories(rel: Relay) {
    && (forall room, c :: HistoryOk(rel, room, c))
    && (forall room, u :: NoRepeats(rel.History(room, u)))
    && (forall room, u :: rel.History(room, u) != [] ==> u in rel.Users(room))
  }

  /** Between two events every message has its author's copy written down. */
  ghost predicate Settled(rel: Relay) {
    && (forall l | l in rel.recipients :: rel.sent.Keys >= {Copy(l.sender, l.id)})
    && (forall c | c in rel.sent :: Copy(rel.sent[c].sender, rel.sent[c].id) in rel.sent)
  }

  // ---------------------------------------------------------------- what the indexes give

  /** Replying "delete" is refused to those who are neither author nor owner; otherwise,
      whichever copy was replied to, it reaches exactly the recorded copies of the message. */
  lemma DeleteReachesRecorded(rel: Relay, l: Logical, owner: UserId, u: UserId, id: MsgId)
    requires Indexes(rel) && rel.Recorded(Copy(u, id)) && rel.sent[Copy(u, id)] == l
    ensures var t := DeleteTargets(rel, l.room, owner, u, id);
            && (t == Refused <==> u != l.sender && u != owner)
            && (t.Done? <==> u == l.sender || u == owner)
            && (t.Done? ==> forall c :: c in t.value <==> rel.Recorded(c) && rel.sent[c] == l)
  {
    assert OriginOk(rel, l, Copy(u, id));
    RecordedCopies(rel, l);
  }

  lemma RecordedCopies(rel: Relay, l: Logical)
    requires Indexes(rel)
    ensures forall c :: c in CopiesOf(rel, l) <==> rel.Recorded(c) && rel.sent[c] == l
  {
    forall c ensures c in CopiesOf(rel, l) <==> rel.Recorded(c) && rel.sent[c] == l {
      assert IdsOk(rel, l, c);
      assert c == Copy(c.chat, c.id);
    }
  }

  /** A copy of the message that nobody wrote down. */
  predicate Stray(rel: Relay, l: Logical, c: Copy) {
    c in rel.strays && Get(rel.sent, c) == Some(l)
  }

  ghost predicate Strayless(rel: Relay, l: Logical) {
    forall c :: !Stray(rel, l, c)
  }

  /** "Delete" misses just the strays of the message. How a stray comes about, and hence when
      "delete" reaches every copy, is told in terms of the sends in `RelaySteps`. */
  lemma DeleteMissesStrays(rel: Relay, l: Logical, owner: UserId, u: UserId, id: MsgId)
    requires Indexes(rel) && rel.Recorded(Copy(u, id)) && rel.sent[Copy(u, id)] == l
    requires u == l.sender || u == owner
    ensures var t := DeleteTargets(rel, l.room, owner, u, id);
            t.Done? && forall c | Get(rel.sent, c) == Some(l) :: c in t.value <==> !Stray(rel, l, c)
  {
    DeleteReachesRecorded(rel, l, owner, u, id);
  }

  /** A copy nobody wrote down cannot be deleted, not even by its author. */
  lemma StrayIsUnknown(rel: Relay, c: Copy, room: RoomId, owner: UserId)
    requires Indexes(rel) && !rel.Recorded(c)
    ensures DeleteTargets(rel, room, owner, c.chat, c.id) == Unknown
  {
    forall o ensures rel.OriginOf(room, c.chat, c.id) != Some(o) {
      assert OriginOk(rel, Logical(room, o.sender, o.id), c);
    }
  }

  /** An edit is accepted just for one's own message, and reaches exactly the recorded
      copies in the chats of the others. */
  lemma EditReachesOthers(rel: Relay, room: RoomId, u: UserId, id: MsgId)
    requires Indexes(rel)
    ensures var t := EditTargets(rel, room, u, id);
            var l := Logical(room, u, id);
            && (t.Done? <==> rel.Recorded(Copy(u, id)) && rel.sent[Copy(u, id)] == l)
            && (t.Done? ==> forall c :: c in t.value <==> rel.Recorded(c) && rel.sent[c] == l && c.chat != u)
  {
    assert OriginOk(rel, Logical(room, u, id), Copy(u, id));
    RecordedCopies(rel, Logical(room, u, id));
  }

  /** A relayed reply quotes, in each chat, a recorded copy of the very message replied to,
      and quotes nothing only where there is none. */
  lemma QuoteIsACopy(rel: Relay, l: Logical, author: UserId, replied: MsgId, u: UserId)
    requires Indexes(rel) && rel.Recorded(Copy(author, replied)) && rel.sent[Copy(author, replied)] == l
    ensures var q := QuoteFor(rel, l.room, author, replied, u);
            && (q.Some? ==> rel.Recorded(Copy(u, q.value)) && rel.sent[Copy(u, q.value)] == l)
            && (q.None? <==> forall id :: !(rel.Recorded(Copy(u, id)) && rel.sent[Copy(u, id)] == l))
  {
    assert OriginOk(rel, l, Copy(author, replied));
    var ids := rel.Ids(l, u);
    forall id ensures id in ids <==> rel.Recorded(Copy(u, id)) && rel.sent[Copy(u, id)] == l {
      assert IdsOk(rel, l, Copy(u, id));
    }
    if ids != [] { assert ids[|ids| - 1] in ids; }
  }

  // ---------------------------------------------------------------- keeping them

  /** Ids Telegram just assigned in the chat of `u`. */
  ghost predicate Fresh(rel: Relay, u: UserId, ids: seq<MsgId>) {
    NoRepeats(ids) && forall id | id in ids :: Copy(u, id) !in rel.sent
  }

  function NewIds(fate: Fate): seq<MsgId> {
    match fate
    case Failed => []
    case LabelOnly(id) => [id]
    case Delivered(ids) => ids
  }

  /** The effect of writing down copies. */
  ghost predicate Adds(rel: Relay, rel': Relay, l: Logical, u: UserId, ids: seq<MsgId>) {
    && (forall m, v :: rel'.Ids(m, v) == if m == l && v == u then ids else rel.Ids(m, v))
    && (forall r, v, id :: rel'.OriginOf(r, v, id) ==
          if r == l.room && v == u && id in ids then Some(Origin(l.sender, l.id)) else rel.OriginOf(r, v, id))
    && (forall c :: Get(rel'.sent, c) == if c.chat == u && c.id in ids then Some(l) else Get(rel.sent, c))
    && (forall r, v :: rel'.History(r, v) == if r == l.room && v == u then rel.History(r, v) + ids else rel.History(r, v))
    && (forall r :: rel'.Users(r) == if r == l.room && ids != [] then rel.Users(r) + {u} else rel.Users(r))
    && rel'.strays == rel.strays && rel'.purged == rel.purged && rel'.offers == rel.offers
    && (forall m :: m in rel'.recipients <==> m in rel.recipients || m == l)
  }

  lemma {:induction false} LinkBackAt(m: map<Local, Origin>, l: Logical, u: UserId, ids: seq<MsgId>, k: Local)
    ensures Get(LinkBack(m, l, u, ids), k)
            == if k.room == l.room && k.viewer == u && k.id in ids then Some(Origin(l.sender, l.id)) else Get(m, k)
  {
    if ids != [] {
      LinkBackAt(m, l, u, ids[..|ids| - 1], k);
      assert ids == ids[..|ids| - 1] + [ids[|ids| - 1]];
    }
  }

  lemma {:induction false} MarkSentAt(m: map<Copy, Logical>, l: Logical, u: UserId, ids: seq<MsgId>, c: Copy)
    ensures Get(MarkSent(m, l, u, ids), c) == if c.chat == u && c.id in ids then Some(l) else Get(m, c)
  {
    if ids != [] {
      MarkSentAt(m, l, u, ids[..|ids| - 1], c);
      assert ids == ids[..|ids| - 1] + [ids[|ids| - 1]];
    }
  }

  lemma MapsEffect(rel: Relay, l: Logical, u: UserId, ids: seq<MsgId>)
    ensures Record(rel, l, u, ids).origin == LinkBack(rel.origin, l, u, ids)
    ensures Record(rel, l, u, ids).sent == MarkSent(rel.sent, l, u, ids)
  {
  }

  lemma OriginEffect(rel: Relay, l: Logical, u: UserId, ids: seq<MsgId>, r: RoomId, v: UserId, id: MsgId)
    ensures Record(rel, l, u, ids).OriginOf(r, v, id)
            == if r == l.room && v == u && id in ids then Some(Origin(l.sender, l.id)) else rel.OriginOf(r, v, id)
  {
    hide Record, LinkBack;
    MapsEffect(rel, l, u, ids);
    LinkBackAt(rel.origin, l, u, ids, Local(r, v, id));
  }

  lemma SentEffect(rel: Relay, l: Logical, u: UserId, ids: seq<MsgId>, c: Copy)
    ensures Get(Record(rel, l, u, ids).sent, c) == if c.chat == u && c.id in ids then Some(l) else Get(rel.sent, c)
  {
    hide Record, MarkSent;
    MapsEffect(rel, l, u, ids);
    MarkSentAt(rel.sent, l, u, ids, c);
  }

  lemma HistoryEffect(rel: Relay, l: Logical, u: UserId, ids: seq<MsgId>, r: RoomId, v: UserId)
    ensures var rel' := Record(rel, l, u, ids);
            && rel'.History(r, v) == (if r == l.room && v == u then rel.History(r, v) + ids else rel.History(r, v))
            && rel'.Users(r) == (if r == l.room && ids != [] then rel.Users(r) + {u} else rel.Users(r))
  {
    assert rel.History(r, v) + [] == rel.History(r, v);
  }

  lemma IdsEffect(rel: Relay, l: Logical, u: UserId, ids: seq<MsgId>, m: Logical, v: UserId)
    ensures var rel' := Record(rel, l, u, ids);
            && rel'.Ids(m, v) == (if m == l && v == u then ids else rel.Ids(m, v))
            && (m in rel'.recipients <==> m in rel.recipients || m == l)
  {
    hide Relay.History, Relay.Users;
  }

  lemma RestEffect(rel: Relay, l: Logical, u: UserId, ids: seq<MsgId>)
    ensures var rel' := Record(rel, l, u, ids);
            rel'.strays == rel.strays && rel'.purged == rel.purged && rel'.offers == rel.offers
  {
    hide Relay.History, Relay.Users;
  }

  lemma RecordAdds(rel: Relay, l: Logical, u: UserId, ids: seq<MsgId>)
    ensures Adds(rel, Record(rel, l, u, ids), l, u, ids)
  {
    var rel' := Record(rel, l, u, ids);
    RestEffect(rel, l, u, ids);
    hide Record, Relay.Ids, Relay.OriginOf, Relay.History, Relay.Users;
    forall r, v ensures rel'.History(r, v) == if r == l.room && v == u then rel.History(r, v) + ids else rel.History(r, v) {
      HistoryEffect(rel, l, u, ids, r, v);
    }
    forall r ensures rel'.Users(r) == if r == l.room && ids != [] then rel.Users(r) + {u} else rel.Users(r) {
      HistoryEffect(rel, l, u, ids, r, u);
    }
    forall m, v
      ensures rel'.Ids(m, v) == if m == l && v == u then ids else rel.Ids(m, v)
    {
      IdsEffect(rel, l, u, ids, m, v);
    }
    forall m ensures m in rel'.recipients <==> m in rel.recipients || m == l { IdsEffect(rel, l, u, ids, m, u); }
    forall r, v, id
      ensures rel'.OriginOf(r, v, id) == if r == l.room && v == u && id in ids then Some(Origin(l.sender, l.id)) else rel.OriginOf(r, v, id)
    {
      OriginEffect(rel, l, u, ids, r, v, id);
    }
    forall c
      ensures Get(rel'.sent, c) == if c.chat == u && c.id in ids then Some(l) else Get(rel.sent, c)
    {
      SentEffect(rel, l, u, ids, c);
    }
  }

  lemma AppendNoRepeats(s: seq<MsgId>, t: seq<MsgId>)
    requires NoRepeats(s) && NoRepeats(t) && forall x | x in t :: x !in s
    ensures NoRepeats(s + t)
  {
    var w := s + t;
    forall i, j | 0 <= i < j < |w| ensures w[i] != w[j] {
      if i < |s| <= j { assert w[i] in s && w[j] in t; }
    }
  }

  /** What is recorded once fresh copies are. */
  lemma AddedRecorded(rel: Relay, rel': Relay, l: Logical, u: UserId, ids: seq<MsgId>, c: Copy)
    requires Adds(rel, rel', l, u, ids) && Fresh(rel, u, ids) && forall d | d in rel.strays :: d in rel.sent
    ensures rel'.Recorded(c) <==> rel.Recorded(c) || (c.chat == u && c.id in ids)
    ensures c.chat == u && c.id in ids ==> rel'.sent[c] == l && !rel.Recorded(c)
    ensures rel.Recorded(c) ==> rel'.sent[c] == rel.sent[c]
  {
    hide Relay.Ids, Relay.OriginOf, Relay.History, Relay.Users;
    assert Get(rel'.sent, c) == if c.chat == u && c.id in ids then Some(l) else Get(rel.sent, c);
    assert c == Copy(c.chat, c.id);
  }

  lemma AddedIndexes(rel: Relay, rel': Relay, l: Logical, u: UserId, ids: seq<MsgId>)
    requires Adds(rel, rel', l, u, ids) && Fresh(rel, u, ids) && rel.Ids(l, u) == []
    requires Indexes(rel)
    ensures Indexes(rel')
  {
    hide Relay.Ids, Relay.OriginOf, Relay.History, Relay.Users, Relay.Recorded;
    forall m, c ensures IdsOk(rel', m, c) && OriginOk(rel', m, c) {
      assert IdsOk(rel, m, c) && OriginOk(rel, m, c);
      AddedRecorded(rel, rel', l, u, ids, c);
    }
    assert forall c | c in rel'.strays :: Get(rel'.sent, c).Some?;
  }

  lemma AddedHistories(rel: Relay, rel': Relay, l: Logical, u: UserId, ids: seq<MsgId>)
    requires Adds(rel, rel', l, u, ids) && Fresh(rel, u, ids) && l.room !in rel.purged
    requires Histories(rel) && forall d | d in rel.strays :: d in rel.sent
    ensures Histories(rel')
  {
    hide Relay.Ids, Relay.OriginOf, Relay.History, Relay.Users, Relay.Recorded;
    forall r, c ensures HistoryOk(rel', r, c) {
      assert HistoryOk(rel, r, c);
      AddedRecorded(rel, rel', l, u, ids, c);
    }
    forall id | id in ids ensures id !in rel.History(l.room, u) {
      assert HistoryOk(rel, l.room, Copy(u, id));
      AddedRecorded(rel, rel', l, u, ids, Copy(u, id));
    }
    AppendNoRepeats(rel.History(l.room, u), ids);
  }

  /** Writing down fresh copies of a message `u` has no copy of yet. */
  lemma RecordKeeps(rel: Relay, l: Logical, u: UserId, ids: seq<MsgId>)
    requires Indexes(rel) && Histories(rel) && Fresh(rel, u, ids) && rel.Ids(l, u) == [] && l.room !in rel.purged
    ensures Indexes(Record(rel, l, u, ids)) && Histories(Record(rel, l, u, ids))
  {
    hide Record;
    RecordAdds(rel, l, u, ids);
    AddedIndexes(rel, Record(rel, l, u, ids), l, u, ids);
    AddedHistories(rel, Record(rel, l, u, ids), l, u, ids);
  }
}
