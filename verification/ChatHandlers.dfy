/** Handlers of 1:1 chats: searching, ending a chat, timeouts. */
module ChatHandlers {
  import opened Basics
  import opened Ledger
  import opened Database
  import opened MatchQueue
  import opened World

  /** `own` is the gender in the caller's profile, if set. */
  function TryMatch(w: World, u: UserId, own: Option<Gender>, want: Option<Gender>, now: real): World {
    if own.None? then w else
      var (q, found) := MatchOrEnqueue(w.queue, u, own.value, want, now);
      if found.None? then w.(queue := q) else w.(queue := q, pairs := SetPartner(w.pairs, u, found.value))
  }

  /** Charges a gender search and marks the user as payer of the chat to come. */
  function PaySearch(w: World, u: UserId): Option<World> {
    match Deduct(w.db, u, CHAT_COST, GenderSearch)
    case None => None
    case Some(db) => Some(w.(db := db, pairs := w.pairs.(payer := w.pairs.payer + {u})))
  }

  function PayAndMatch(w: World, u: UserId, own: Option<Gender>, want: Option<Gender>, now: real): World {
    if want.None? then TryMatch(w, u, own, want, now) else
      match PaySearch(w, u)
      case None => w
      case Some(w1) => TryMatch(w1, u, own, want, now)
  }

  function StartChat(w: World, u: UserId, own: Option<Gender>, want: Option<Gender>, now: real): World {
    if OnChatSide(w, u) || OnRoomSide(w, u) then w else PayAndMatch(w, u, own, want, now)
  }

  /** Filtered search. `choice` is the candidate picked by the profile filters among the
      waiting users, if any; without one the caller falls back to the plain search. */
  function RunSearch(w: World, u: UserId, own: Option<Gender>, filter: Option<Gender>, choice: Option<UserId>, now: real): World {
    if OnRoomSide(w, u) || w.pairs.Partner(u).Some? then w else
      match if filter.Some? then PaySearch(w, u) else Some(w)
      case None => w
      case Some(w1) =>
        if choice.None? then TryMatch(w1, u, own, filter, now) else
          var c := choice.value;
          var w2 := w1.(queue := Dequeue(w1.queue, c));
          if w1.queue.Waiting(c) && w1.pairs.Partner(c).None?
          then w2.(queue := Dequeue(w2.queue, u), pairs := SetPartner(w2.pairs, u, c))
          else TryMatch(w2, u, own, filter, now)
  }

  function RefundIf(db: Db, cond: bool, u: UserId): Db {
    if cond then Refund(db, u, CHAT_COST, FailedChatRefund) else db
  }

  const MIN_SUCCESSFUL_MESSAGES := 3

  /** Unpairs the two users; a chat of fewer than three messages gives payers their coins back. */
  function EndChat(w: World, u: UserId, v: UserId): World {
    var failed := w.pairs.MsgCount(u, v) < MIN_SUCCESSFUL_MESSAGES;
    var db1 := RefundIf(w.db, failed && u in w.pairs.payer, u);
    var db2 := RefundIf(db1, failed && v in w.pairs.payer, v);
    w.(db := db2, pairs := ClearPartner(w.pairs, u))
  }

  /** Leaving the queue early, by hand or by timeout. */
  function LeaveQueue(w: World, u: UserId, reason: Reason): World {
    var w1 := w.(queue := Dequeue(w.queue, u));
    if u in w.pairs.payer
    then RefundWorld(w1, u, CHAT_COST, reason).(pairs := w.pairs.(payer := w.pairs.payer - {u}))
    else w1
  }

  function StopChat(w: World, u: UserId): World {
    if w.queue.Waiting(u) then LeaveQueue(w, u, SearchCancelRefund)
    else match w.pairs.Partner(u)
      case None => w
      case Some(v) => EndChat(w, u, v)
  }

  /** `pref` is the saved preference, if any; without one the user is only asked for it. */
  function NextChat(w: World, u: UserId, own: Option<Gender>, pref: Option<Option<Gender>>, now: real): World {
    var w1 := match w.pairs.Partner(u) case None => w case Some(v) => EndChat(w, u, v);
    var w2 := w1.(queue := Dequeue(w1.queue, u));
    if pref.None? then w2 else PayAndMatch(w2, u, own, pref.value, now)
  }

  function QueueTimeout(w: World, u: UserId): World {
    if !w.queue.Waiting(u) then w else LeaveQueue(w, u, SearchTimeoutRefund)
  }

  function PurgeQueue(w: World, cutoff: real): World {
    w.(queue := PurgeStale(w.queue, cutoff))
  }

  /** A message that reached the partner. */
  function Message(w: World, u: UserId): World {
    match w.pairs.Partner(u)
    case None => w
    case Some(v) => w.(pairs := w.pairs.(msgs := w.pairs.msgs[{u, v} := w.pairs.MsgCount(u, v) + 1]))
  }
}
