/** The two entry points to 1:1 chats that lack a guard keep the world invariant exactly in
    the cases stated here, which a caller could test beforehand. */
module MissingGuards {
  import opened Basics
  import opened Ledger
  import opened Database
  import opened RoomInvariant
  import opened MatchQueue
  import opened World
  import opened ChatHandlers
  import opened WorldInvariant
  import opened ChatSteps
  import opened ChatEndings

  // ---------------------------------------------------------------- /next

  /** What /next pays back before it searches: the fee of a chat of fewer than three messages. */
  function NextRefund(w: World, u: UserId): nat {
    match w.pairs.Partner(u)
    case None => 0
    case Some(v) => if u in w.pairs.payer && w.pairs.MsgCount(u, v) < MIN_SUCCESSFUL_MESSAGES then CHAT_COST else 0
  }

  /** The user gets into the 1:1 side: a preference is saved, the profile has a gender, and
      coins and refund cover the fee of a gender filter. */
  predicate NextEnters(w: World, u: UserId, own: Option<Gender>, pref: Option<Option<Gender>>) {
    && pref.Some? && own.Some?
    && (pref.value.Some? ==> u in w.db.users && w.db.users[u].coins + NextRefund(w, u) >= CHAT_COST)
  }

  /** The missing guard: the user is on the room side and would get into the 1:1 side. */
  predicate NextBreaks(w: World, u: UserId, own: Option<Gender>, pref: Option<Option<Gender>>) {
    OnRoomSide(w, u) && NextEnters(w, u, own, pref)
  }

  lemma NextBasePays(w: World, u: UserId)
    requires WorldInv(w)
    ensures PaySearch(NextBase(w, u), u).Some? <==> u in w.db.users && w.db.users[u].coins + NextRefund(w, u) >= CHAT_COST
  {
    hide DbInv, NoMissedMatch, Exclusive, SearchFees, SeekersInv, MirrorInv, RequestsInv, Count;
  }

  lemma TryMatchEnters(w: World, u: UserId, own: Option<Gender>, want: Option<Gender>, now: real)
    ensures var w' := TryMatch(w, u, own, want, now);
            && (own.Some? ==> OnChatSide(w', u))
            && OnRoomSide(w', u) == OnRoomSide(w, u)
  {
    hide FirstMatch, Candidates;
  }

  lemma NoGenderKeeps(w: World, u: UserId, want: Option<Gender>, now: real)
    ensures TryMatch(w, u, None, want, now) == w
  {
  }

  /** /next asks nothing about rooms. It keeps the invariant of all states, and already the
      two sides apart, just when its user is not on the room side or does not get into the
      queue. */
  lemma NextChatExactly(w: World, u: UserId, own: Option<Gender>, pref: Option<Option<Gender>>, now: real)
    requires WorldInv(w)
    ensures WorldInv(NextChat(w, u, own, pref, now)) <==> !NextBreaks(w, u, own, pref)
    ensures Exclusive(NextChat(w, u, own, pref, now)) <==> !NextBreaks(w, u, own, pref)
  {
    hide EndChat, TryMatch, Count, Sum, NoMissedMatch, DbInv, PairsInv, SearchFees, SeekersInv, MirrorInv, RequestsInv;
    NextBaseKeeps(w, u);
    NextBasePays(w, u);
    var w2 := NextBase(w, u);
    if pref.Some? {
      if !OnRoomSide(w, u) {
        PayAndMatchKeeps(w2, u, own, pref.value, now);
      } else {
        PaySearchKeeps(w2, u);
        var paid := if pref.value.None? then Some(w2) else PaySearch(w2, u);
        if paid.Some? {
          TryMatchEnters(paid.value, u, own, pref.value, now);
          if own.None? { NoGenderKeeps(paid.value, u, pref.value, now); }
        }
      }
    }
  }

  // ---------------------------------------------------------------- the filtered search

  /** Somebody the caller would be matched with. */
  ghost predicate SomebodySuits(q: Queue, u: UserId, own: Gender, want: Option<Gender>) {
    exists c | c in Candidates(q, want) :: Suits(q, u, own, c)
  }

  /** The caller waits under its former gender, and somebody it searches wishes for that. */
  ghost predicate LeavesStaleEntry(q: Queue, u: UserId, own: Gender, want: Option<Gender>) {
    u in q.Bucket(own.Other()) && exists g, c :: WishesFormerGender(q, u, own, want, g, c)
  }

  /** The missing guard: a waiting caller falls back to the plain search, passes its payment,
      and either is matched, while its own entry stays, or misses a match by an old entry. */
  ghost predicate SearchBreaks(w: World, u: UserId, own: Option<Gender>, filter: Option<Gender>, choice: Option<UserId>) {
    && w.queue.Waiting(u) && own.Some? && (filter.Some? ==> CanPay(w.db, u, CHAT_COST))
    && !(choice.Some? && w.queue.Waiting(choice.value))
    && (SomebodySuits(w.queue, u, own.value, filter) || LeavesStaleEntry(w.queue, u, own.value, filter))
  }

  /** A waiting caller that is matched ends up paired and still waiting; one that is not just
      keeps waiting, as before or under its new gender and wish. */
  lemma WaitingCallerExactly(w: World, u: UserId, own: Option<Gender>, want: Option<Gender>, now: real)
    requires WorldInv(w) && w.queue.Waiting(u)
    ensures var w' := TryMatch(w, u, own, want, now);
            WorldInv(w') <==>
            !(own.Some? && (SomebodySuits(w.queue, u, own.value, want) || LeavesStaleEntry(w.queue, u, own.value, want)))
  {
    hide FirstMatch, Candidates, Count, Sum, NoMissedMatch, DbInv, SearchFees, SeekersInv, MirrorInv, RequestsInv, WishesFormerGender;
    if own.Some? {
      var found := FirstMatch(w.queue, u, own.value, Candidates(w.queue, want));
      FoundIsWaiting(w.queue, u, own.value, want);
      var w' := TryMatch(w, u, own, want, now);
      WaitingIsUnpaired(w.queue, w.pairs, u);
      if found.None? {
        FewerWaitingKeeps(w.queue, w'.queue, w.pairs);
        StaleEntryBreaksNoMissedMatch(w.queue, u, own.value, want, now);
        if NoMissedMatch(w'.queue) { ChatSide(w, w.db, w'.queue, w.pairs); }
      } else {
        assert w'.pairs.Partner(u) == found && w'.queue.Waiting(u);
      }
    }
  }

  /** Taking a user who does not wait out of the queue changes nobody's search. */
  lemma AbsentChoice(q: Queue, c: UserId, u: UserId, own: Gender, want: Option<Gender>)
    requires !q.Waiting(c)
    ensures SomebodySuits(Dequeue(q, c), u, own, want) <==> SomebodySuits(q, u, own, want)
    ensures LeavesStaleEntry(Dequeue(q, c), u, own, want) <==> LeavesStaleEntry(q, u, own, want)
  {
    var q' := Dequeue(q, c);
    hide Candidates, Suits, WishesFormerGender;
    forall x ensures x in Candidates(q', want) && Suits(q', u, own, x) <==> x in Candidates(q, want) && Suits(q, u, own, x) {
      SameCandidate(q, c, u, own, want, x);
    }
    forall g, x ensures WishesFormerGender(q', u, own, want, g, x) <==> WishesFormerGender(q, u, own, want, g, x) {
      SameWish(q, c, u, own, want, g, x);
    }
  }

  lemma SameCandidate(q: Queue, c: UserId, u: UserId, own: Gender, want: Option<Gender>, x: UserId)
    requires !q.Waiting(c)
    ensures x in Candidates(Dequeue(q, c), want) && Suits(Dequeue(q, c), u, own, x)
            <==> x in Candidates(q, want) && Suits(q, u, own, x)
  {
    hide Candidates;
    CandidateMembership(q, want, x);
    CandidateMembership(Dequeue(q, c), want, x);
    assert forall g :: x in Dequeue(q, c).Bucket(g) <==> x in q.Bucket(g);
  }

  lemma SameWish(q: Queue, c: UserId, u: UserId, own: Gender, want: Option<Gender>, g: Gender, x: UserId)
    requires !q.Waiting(c)
    ensures WishesFormerGender(Dequeue(q, c), u, own, want, g, x) <==> WishesFormerGender(q, u, own, want, g, x)
  {
  }

  /** The claim of a waiting caller: it succeeds, or falls back to the plain search. */
  lemma ClaimExactly(w: World, u: UserId, own: Option<Gender>, filter: Option<Gender>, c: UserId, now: real)
    requires WorldInv(w) && w.queue.Waiting(u) && c != u
    ensures var w2 := w.(queue := Dequeue(w.queue, c));
            var w' := if w.queue.Waiting(c) && w.pairs.Partner(c).None?
                      then w2.(queue := Dequeue(w2.queue, u), pairs := SetPartner(w2.pairs, u, c))
                      else TryMatch(w2, u, own, filter, now);
            WorldInv(w') <==>
            !(own.Some? && !w.queue.Waiting(c)
              && (SomebodySuits(w.queue, u, own.value, filter) || LeavesStaleEntry(w.queue, u, own.value, filter)))
  {
    hide Count, Sum, NoMissedMatch, DbInv, SearchFees, SeekersInv, MirrorInv, RequestsInv, TryMatch, SomebodySuits, LeavesStaleEntry;
    WaitingIsUnpaired(w.queue, w.pairs, u);
    assert !OnRoomSide(w, u) by { assert OnChatSide(w, u); }
    ClaimKeeps(w, u, own, filter, c, now);
    if w.queue.Waiting(c) {
      WaitingIsUnpaired(w.queue, w.pairs, c);
    } else {
      WaitingCallerExactly(w.(queue := Dequeue(w.queue, c)), u, own, filter, now);
      if own.Some? { AbsentChoice(w.queue, c, u, own.value, filter); }
    }
  }

  /** The filtered search does not ask whether its caller is already waiting. It keeps the
      invariant of all states exactly unless the missing guard would have turned it away. */
  lemma RunSearchExactly(w: World, u: UserId, own: Option<Gender>, filter: Option<Gender>, choice: Option<UserId>, now: real)
    requires WorldInv(w) && (choice.Some? ==> choice.value != u)
    ensures WorldInv(RunSearch(w, u, own, filter, choice, now)) <==> !SearchBreaks(w, u, own, filter, choice)
  {
    hide Count, Sum, NoMissedMatch, DbInv, SearchFees, SeekersInv, MirrorInv, RequestsInv, TryMatch, SomebodySuits, LeavesStaleEntry;
    if !w.queue.Waiting(u) {
      FreshSearchKeeps(w, u, own, filter, choice, now);
    } else {
      WaitingIsUnpaired(w.queue, w.pairs, u);
      assert !OnRoomSide(w, u) by { assert OnChatSide(w, u); }
      PaySearchKeeps(w, u);
      var paid := if filter.Some? then PaySearch(w, u) else Some(w);
      if paid.Some? {
        if choice.None? {
          WaitingCallerExactly(paid.value, u, own, filter, now);
        } else {
          ClaimExactly(paid.value, u, own, filter, choice.value, now);
        }
      }
    }
  }
}
