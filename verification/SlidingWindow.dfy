/** The anti-spam guard: sliding windows kept as sorted sets of attempt times, and the block
    that follows an overflow. */
module SlidingWindows {

  const MSG_LIMIT := 12
  const MSG_WINDOW := 5.0
  const CMD_LIMIT := 8
  const CMD_WINDOW := 10.0
  const FLOOD_LIMIT := 30
  const FLOOD_WINDOW := 30.0
  const BLOCK_DURATION := 60.0

  // ---------------------------------------------------------------- one window

  /** The sorted set after one attempt: old entries dropped, the new one added. An entry is
      named after its own time, so the set of times is all there is. */
  function Slide(z: set<real>, window: real, now: real): set<real> {
    (set t | t in z && t > now - window) + {now}
  }

  function Slides(window: real, ts: seq<real>): set<real> {
    if ts == [] then {} else Slide(Slides(window, ts[..|ts| - 1]), window, ts[|ts| - 1])
  }

  /** What the window is meant to hold: the attempts of the last `window` seconds. */
  function Recent(window: real, ts: seq<real>, now: real): set<real> {
    set t | t in ts && now - window < t <= now
  }

  /** Attempts that were within the limit. */
  function Passed(window: real, limit: nat, ts: seq<real>): set<real> {
    if ts == [] then {}
    else Passed(window, limit, ts[..|ts| - 1]) + (if |Slides(window, ts)| <= limit then {ts[|ts| - 1]} else {})
  }

  ghost predicate Rising(ts: seq<real>) {
    forall i, j | 0 <= i < j < |ts| :: ts[i] <= ts[j]
  }

  ghost predicate Strict(ts: seq<real>) {
    forall i, j | 0 <= i < j < |ts| :: ts[i] < ts[j]
  }

  lemma RisingPrefix(ts: seq<real>)
    requires ts != [] && Rising(ts)
    ensures Rising(ts[..|ts| - 1]) && ts == ts[..|ts| - 1] + [ts[|ts| - 1]]
    ensures forall t | t in ts :: t <= ts[|ts| - 1]
    ensures forall t | t in ts[..|ts| - 1] :: t in ts
  {
  }

  /** After each check the sorted set holds exactly the attempts of the last window. */
  lemma {:induction false} WindowIsExact(window: real, ts: seq<real>)
    requires window > 0.0 && ts != [] && Rising(ts)
    ensures Slides(window, ts) == Recent(window, ts, ts[|ts| - 1])
    decreases |ts|
  {
    RisingPrefix(ts);
    var before, now := ts[..|ts| - 1], ts[|ts| - 1];
    if before != [] {
      WindowIsExact(window, before);
      forall t ensures t in Slides(window, ts) <==> t in Recent(window, ts, now) {}
    }
  }

  lemma {:induction false} PassedAreAttempts(window: real, limit: nat, ts: seq<real>)
    ensures forall t | t in Passed(window, limit, ts) :: t in ts
    decreases |ts|
  {
    if ts != [] {
      PassedAreAttempts(window, limit, ts[..|ts| - 1]);
      assert ts == ts[..|ts| - 1] + [ts[|ts| - 1]];
    }
  }

  lemma Smaller(a: set<real>, b: set<real>)
    requires a <= b
    ensures |a| <= |b|
  {
    assert b == a + (b - a);
  }

  /** Every half-open window of the given length contains at most `limit` readings at which
      attempts were let through, however many attempts share a reading. */
  lemma {:induction false} ReadingsBound(window: real, limit: nat, ts: seq<real>, from: real)
    requires window > 0.0 && Rising(ts)
    ensures |set t | t in Passed(window, limit, ts) && from < t <= from + window| <= limit
    decreases |ts|
  {
    if ts != [] {
      RisingPrefix(ts);
      var before, now := ts[..|ts| - 1], ts[|ts| - 1];
      var inside := set t | t in Passed(window, limit, ts) && from < t <= from + window;
      if |Slides(window, ts)| <= limit && from < now <= from + window {
        PassedAreAttempts(window, limit, ts);
        WindowIsExact(window, ts);
        Smaller(inside, Slides(window, ts));
      } else {
        ReadingsBound(window, limit, before, from);
        assert inside == set t | t in Passed(window, limit, before) && from < t <= from + window;
      }
    }
  }

  /** Number of attempts in the last window. */
  function RecentCount(window: real, ts: seq<real>, now: real): nat {
    if ts == [] then 0
    else RecentCount(window, ts[..|ts| - 1], now) + (if now - window < ts[|ts| - 1] <= now then 1 else 0)
  }

  ghost predicate DistinctSince(ts: seq<real>, cutoff: real) {
    forall i, j | 0 <= i < j < |ts| && ts[i] > cutoff && ts[j] > cutoff :: ts[i] != ts[j]
  }

  lemma {:induction false} CountsDistinct(window: real, ts: seq<real>, now: real)
    requires forall t | t in ts :: t <= now
    requires Rising(ts)
    ensures |Recent(window, ts, now)| <= RecentCount(window, ts, now)
    ensures |Recent(window, ts, now)| == RecentCount(window, ts, now) <==> DistinctSince(ts, now - window)
    decreases |ts|
  {
    if ts == [] {
      assert Recent(window, ts, now) == {};
    } else {
      RisingPrefix(ts);
      hide Rising;
      var before, last := ts[..|ts| - 1], ts[|ts| - 1];
      assert last in ts;
      forall t | t in before ensures t <= now { assert t in ts; }
      CountsDistinct(window, before, now);
      CountsDistinctSnoc(window, before, last, now);
    }
  }

  lemma CountsDistinctSnoc(window: real, before: seq<real>, last: real, now: real)
    requires (forall t | t in before :: t <= last) && last <= now
    requires |Recent(window, before, now)| <= RecentCount(window, before, now)
    requires |Recent(window, before, now)| == RecentCount(window, before, now) <==> DistinctSince(before, now - window)
    ensures var ts := before + [last];
            && |Recent(window, ts, now)| <= RecentCount(window, ts, now)
            && (|Recent(window, ts, now)| == RecentCount(window, ts, now) <==> DistinctSince(ts, now - window))
  {
    RecentSnoc(window, before, last, now);
    hide Recent, DistinctSince, RecentCount;
    if now - window < last {
      if last in Recent(window, before, now) {
        SharedTime(before, last, now - window);
      } else {
        assert forall t | t in before && t > now - window :: t != last by { NotRecent(window, before, last, now); }
        DistinctSnoc(before, last, now - window);
      }
    } else {
      AllOld(before + [last], now - window);
      AllOld(before, now - window);
    }
  }

  lemma AllOld(ts: seq<real>, cutoff: real)
    requires forall t | t in ts :: t <= cutoff
    ensures DistinctSince(ts, cutoff)
  {
    assert forall i | 0 <= i < |ts| :: ts[i] in ts;
  }

  lemma RecentSnoc(window: real, before: seq<real>, last: real, now: real)
    ensures Recent(window, before + [last], now) == Recent(window, before, now) + (if now - window < last <= now then {last} else {})
    ensures last in Recent(window, before, now) <==> last in before && now - window < last <= now
    ensures RecentCount(window, before + [last], now)
            == RecentCount(window, before, now) + (if now - window < last <= now then 1 else 0)
  {
    assert (before + [last])[..|before|] == before;
  }

  lemma NotRecent(window: real, before: seq<real>, last: real, now: real)
    requires last !in Recent(window, before, now) && forall t | t in before :: t <= now
    ensures forall t | t in before && t > now - window :: t != last
  {
  }

  lemma SharedTime(before: seq<real>, last: real, cutoff: real)
    requires last in before && last > cutoff
    ensures !DistinctSince(before + [last], cutoff)
  {
    var i :| 0 <= i < |before| && before[i] == last;
    var ts := before + [last];
    assert ts[i] == ts[|before|];
  }

  lemma DistinctSnoc(before: seq<real>, last: real, cutoff: real)
    requires forall t | t in before && t > cutoff :: t != last
    ensures DistinctSince(before, cutoff) <==> DistinctSince(before + [last], cutoff)
  {
    var ts := before + [last];
    if DistinctSince(before, cutoff) {
      forall i, j | 0 <= i < j < |ts| && ts[i] > cutoff && ts[j] > cutoff ensures ts[i] != ts[j] {
        assert ts[i] == before[i] && before[i] in before;
        if j < |before| { assert before[j] == ts[j]; }
      }
    }
    if DistinctSince(ts, cutoff) {
      forall i, j | 0 <= i < j < |before| && before[i] > cutoff && before[j] > cutoff ensures before[i] != before[j] {
        assert ts[i] == before[i] && ts[j] == before[j];
      }
    }
  }

  /** Two attempts at the same clock reading share one entry. The guard counts every
      attempt exactly when no two of the window do. */
  lemma CountIsExactly(window: real, ts: seq<real>)
    requires window > 0.0 && ts != [] && Rising(ts)
    ensures |Slides(window, ts)| == RecentCount(window, ts, ts[|ts| - 1]) <==> DistinctSince(ts, ts[|ts| - 1] - window)
  {
    WindowIsExact(window, ts);
    RisingPrefix(ts);
    CountsDistinct(window, ts, ts[|ts| - 1]);
  }

  /** Number of attempts let through in the half-open window after `from`. */
  function PassedCount(window: real, limit: nat, ts: seq<real>, from: real): nat {
    if ts == [] then 0 else
      PassedCount(window, limit, ts[..|ts| - 1], from)
      + (if |Slides(window, ts)| <= limit && from < ts[|ts| - 1] <= from + window then 1 else 0)
  }

  /** No two attempts of the half-open window after `from` share a reading. */
  ghost predicate DistinctWithin(ts: seq<real>, from: real, window: real) {
    forall i, j | 0 <= i < j < |ts| && from < ts[i] && ts[j] <= from + window :: ts[i] != ts[j]
  }

  lemma {:induction false} PassedAtMostRecent(window: real, limit: nat, ts: seq<real>, from: real, now: real)
    requires forall t | t in ts :: t <= now
    ensures PassedCount(window, limit, ts, from) <= RecentCount(now - from, ts, now)
    decreases |ts|
  {
    if ts != [] {
      var before := ts[..|ts| - 1];
      assert ts[|ts| - 1] in ts && forall t | t in before :: t in ts;
      PassedAtMostRecent(window, limit, before, from, now);
    }
  }

  /** The window at an attempt that is let through. */
  lemma PassedBound(window: real, limit: nat, ts: seq<real>, from: real)
    requires ts != [] && Rising(ts) && DistinctWithin(ts, from, window)
    requires |Slides(window, ts)| <= limit && from < ts[|ts| - 1] <= from + window && window > 0.0
    ensures PassedCount(window, limit, ts, from) <= limit
  {
    var now := ts[|ts| - 1];
    assert DistinctSince(ts, from) && forall t | t in ts :: t <= now by { RisingPrefix(ts); LastIsWithin(ts, from, window); }
    hide DistinctWithin, DistinctSince, Slides, PassedCount, RecentCount;
    PassedAtMostRecent(window, limit, ts, from, now);
    CountsDistinct(now - from, ts, now);
    WindowIsExact(window, ts);
    Smaller(Recent(now - from, ts, now), Slides(window, ts));
  }

  lemma LastIsWithin(ts: seq<real>, from: real, window: real)
    requires ts != [] && Rising(ts) && DistinctWithin(ts, from, window) && ts[|ts| - 1] <= from + window
    ensures DistinctSince(ts, from)
  {
    forall i, j | 0 <= i < j < |ts| && ts[i] > from && ts[j] > from ensures ts[i] != ts[j] {
      assert ts[j] <= ts[|ts| - 1];
    }
  }

  /** Attempts are counted, not readings: as long as those of the window have distinct
      readings, at most `limit` of them are let through. */
  lemma {:induction false} WindowBound(window: real, limit: nat, ts: seq<real>, from: real)
    requires window > 0.0 && Rising(ts) && DistinctWithin(ts, from, window)
    ensures PassedCount(window, limit, ts, from) <= limit
    decreases |ts|
  {
    hide Slides;
    if ts != [] {
      var now := ts[|ts| - 1];
      if |Slides(window, ts)| <= limit && from < now <= from + window {
        PassedBound(window, limit, ts, from);
      } else {
        RisingPrefix(ts);
        WindowBound(window, limit, ts[..|ts| - 1], from);
      }
    }
  }

  /** Without that, the limit is none: any number of attempts at one reading are let through. */
  lemma {:induction false} EqualTimesAllPass(window: real, limit: nat, n: nat, t: real)
    requires window > 0.0 && limit > 0
    ensures var ts := seq(n, _ => t);
            Rising(ts) && PassedCount(window, limit, ts, t - window) == n && (n > 0 ==> Slides(window, ts) == {t})
  {
    if n > 0 {
      EqualTimesAllPass(window, limit, n - 1, t);
      var before := seq(n - 1, _ => t);
      assert seq(n, _ => t) == before + [t];
      OneMoreAtOnce(window, limit, before, t);
    }
  }

  lemma OneMoreAtOnce(window: real, limit: nat, before: seq<real>, t: real)
    requires window > 0.0 && limit > 0 && Slides(window, before) <= {t}
    ensures Slides(window, before + [t]) == {t}
    ensures PassedCount(window, limit, before + [t], t - window) == PassedCount(window, limit, before, t - window) + 1
  {
    assert (before + [t])[..|before|] == before;
    assert Slides(window, before + [t]) == {t};
    assert |{t}| == 1;
  }

  /** Two attempts at one reading are counted once. */
  lemma EqualTimesCountOnce()
    ensures var ts := [0.0, 0.0];
            Rising(ts) && |Slides(MSG_WINDOW, ts)| == 1 && RecentCount(MSG_WINDOW, ts, 0.0) == 2
  {
    var ts := [0.0, 0.0];
    assert ts[..1] == [0.0] && [0.0][..0] == [];
    assert Slides(MSG_WINDOW, [0.0]) == {0.0};
    assert Slides(MSG_WINDOW, ts) == {0.0};
    assert RecentCount(MSG_WINDOW, [0.0], 0.0) == 1;
  }

  /** The whole key expires one second after its newest entry has left every window. */
  function Expire(z: set<real>, window: real, now: real): set<real> {
    if forall t | t in z :: t + window + 1.0 <= now then {} else z
  }

  lemma ExpiryIsHarmless(z: set<real>, window: real, at: real, now: real)
    requires at <= now
    ensures Slide(Expire(z, window, at), window, now) == Slide(z, window, now)
  {
  }

  // ---------------------------------------------------------------- the guard

  datatype Verdict = Allowed | JustBlocked | AlreadyBlocked

  /** The keys of one user. */
  datatype Guard = Guard(flood: set<real>, msg: set<real>, cmd: set<real>, blockedUntil: real)

  /** A message or a command with the clock readings its check makes, in this order: for the
      block, for each window, and for a new block. */
  datatype Check =
    | Message(seen: real, floodAt: real, msgAt: real, blockAt: real)
    | Command(seen: real, cmdAt: real, blockAt: real)

  predicate InOrder(c: Check) {
    match c
    case Message(seen, floodAt, msgAt, blockAt) => seen <= floodAt <= msgAt <= blockAt
    case Command(seen, cmdAt, blockAt) => seen <= cmdAt <= blockAt
  }

  function Step(g: Guard, c: Check): (Guard, Verdict) {
    if c.seen < g.blockedUntil then (g, AlreadyBlocked) else
      match c
      case Message(_, floodAt, msgAt, blockAt) =>
        var flood := Slide(g.flood, FLOOD_WINDOW, floodAt);
        var msg := Slide(g.msg, MSG_WINDOW, msgAt);
        var g1 := g.(flood := flood, msg := msg);
        if |flood| > FLOOD_LIMIT || |msg| > MSG_LIMIT then (g1.(blockedUntil := blockAt + BLOCK_DURATION), JustBlocked)
        else (g1, Allowed)
      case Command(_, cmdAt, blockAt) =>
        var cmd := Slide(g.cmd, CMD_WINDOW, cmdAt);
        var g1 := g.(cmd := cmd);
        if |cmd| > CMD_LIMIT then (g1.(blockedUntil := blockAt + BLOCK_DURATION), JustBlocked) else (g1, Allowed)
  }

  /** `start` is the time at which the guard first looks at its user. */
  function Guarded(start: real, cs: seq<Check>): Guard {
    if cs == [] then Guard({}, {}, {}, start) else Step(Guarded(start, cs[..|cs| - 1]), cs[|cs| - 1]).0
  }

  /** The verdict on the last of the checks. */
  function VerdictOn(start: real, cs: seq<Check>): Verdict
    requires cs != []
  {
    Step(Guarded(start, cs[..|cs| - 1]), cs[|cs| - 1]).1
  }

  /** Checks follow one another in time. */
  ghost predicate Sequential(start: real, cs: seq<Check>) {
    && (forall i | 0 <= i < |cs| :: InOrder(cs[i]) && start <= cs[i].seen)
    && (forall i, j | 0 <= i < j < |cs| :: cs[i].blockAt < cs[j].seen)
  }

  /** Checks that were not dropped on sight reach the windows. */
  predicate Reaches(start: real, cs: seq<Check>) {
    cs != [] && !VerdictOn(start, cs).AlreadyBlocked?
  }

  function FloodTimes(start: real, cs: seq<Check>): seq<real> {
    if cs == [] then []
    else FloodTimes(start, cs[..|cs| - 1]) + (if Reaches(start, cs) && cs[|cs| - 1].Message? then [cs[|cs| - 1].floodAt] else [])
  }

  function MsgTimes(start: real, cs: seq<Check>): seq<real> {
    if cs == [] then []
    else MsgTimes(start, cs[..|cs| - 1]) + (if Reaches(start, cs) && cs[|cs| - 1].Message? then [cs[|cs| - 1].msgAt] else [])
  }

  function CmdTimes(start: real, cs: seq<Check>): seq<real> {
    if cs == [] then []
    else CmdTimes(start, cs[..|cs| - 1]) + (if Reaches(start, cs) && cs[|cs| - 1].Command? then [cs[|cs| - 1].cmdAt] else [])
  }

  lemma SequentialPrefix(start: real, cs: seq<Check>)
    requires Sequential(start, cs) && cs != []
    ensures Sequential(start, cs[..|cs| - 1])
    ensures forall c | c in cs[..|cs| - 1] :: c.blockAt < cs[|cs| - 1].seen
    ensures InOrder(cs[|cs| - 1])
  {
    var before := cs[..|cs| - 1];
    forall i | 0 <= i < |before| ensures InOrder(before[i]) && start <= before[i].seen { assert before[i] == cs[i]; }
    forall i, j | 0 <= i < j < |before|
      ensures before[i].blockAt < before[j].seen
    {
      assert before[i] == cs[i] && before[j] == cs[j];
    }
  }

  /** One more check: what it adds to the run. */
  lemma Unfold(start: real, cs: seq<Check>)
    requires cs != []
    ensures var before, c := cs[..|cs| - 1], cs[|cs| - 1];
            var (g, v) := Step(Guarded(start, before), c);
            && Guarded(start, cs) == g && VerdictOn(start, cs) == v
            && (Reaches(start, cs) <==> v != AlreadyBlocked)
            && FloodTimes(start, cs)
               == (if v != AlreadyBlocked && c.Message? then FloodTimes(start, before) + [c.floodAt] else FloodTimes(start, before))
            && MsgTimes(start, cs)
               == (if v != AlreadyBlocked && c.Message? then MsgTimes(start, before) + [c.msgAt] else MsgTimes(start, before))
            && CmdTimes(start, cs)
               == (if v != AlreadyBlocked && c.Command? then CmdTimes(start, before) + [c.cmdAt] else CmdTimes(start, before))
  {
    hide Step;
  }

  lemma NoChecks(start: real)
    ensures Guarded(start, []) == Guard({}, {}, {}, start)
    ensures FloodTimes(start, []) == MsgTimes(start, []) == CmdTimes(start, []) == []
    ensures forall window :: Slides(window, []) == {}
  {
  }

  /** Every time recorded by a window is one of the checks' own. */
  ghost predicate Known(cs: seq<Check>, t: real) {
    exists c | c in cs :: InOrder(c) && c.seen <= t <= c.blockAt
  }

  lemma KnownSnoc(cs: seq<Check>, t: real)
    requires cs != [] && Known(cs[..|cs| - 1], t)
    ensures Known(cs, t)
  {
    var c :| c in cs[..|cs| - 1] && InOrder(c) && c.seen <= t <= c.blockAt;
    assert c in cs;
  }

  lemma StrictSnoc(ts: seq<real>, t: real)
    requires Strict(ts) && forall s | s in ts :: s < t
    ensures Strict(ts + [t]) && Rising(ts + [t])
  {
    assert forall i | 0 <= i < |ts| :: ts[i] in ts;
  }

  /** The three sorted sets are those of three independent windows, each fed with the
      checks that reached it, in strictly rising order. */
  lemma {:induction false} WindowsRefine(start: real, cs: seq<Check>)
    requires Sequential(start, cs)
    ensures Guarded(start, cs).flood == Slides(FLOOD_WINDOW, FloodTimes(start, cs))
    ensures Guarded(start, cs).msg == Slides(MSG_WINDOW, MsgTimes(start, cs))
    ensures Guarded(start, cs).cmd == Slides(CMD_WINDOW, CmdTimes(start, cs))
    decreases |cs|
  {
    hide Guarded, VerdictOn, Reaches, FloodTimes, MsgTimes, CmdTimes, Slides;
    NoChecks(start);
    if cs != [] {
      SequentialPrefix(start, cs);
      WindowsRefine(start, cs[..|cs| - 1]);
      var c := cs[|cs| - 1];
      Unfold(start, cs);
      if Reaches(start, cs) {
        if c.Message? {
          SlidesSnoc(FLOOD_WINDOW, FloodTimes(start, cs[..|cs| - 1]), c.floodAt);
          SlidesSnoc(MSG_WINDOW, MsgTimes(start, cs[..|cs| - 1]), c.msgAt);
        } else {
          SlidesSnoc(CMD_WINDOW, CmdTimes(start, cs[..|cs| - 1]), c.cmdAt);
        }
      }
    }
  }

  lemma SlidesSnoc(window: real, ts: seq<real>, t: real)
    ensures Slides(window, ts + [t]) == Slide(Slides(window, ts), window, t)
  {
    assert (ts + [t])[..|ts|] == ts;
  }

  lemma {:induction false} TimesAreKnown(start: real, cs: seq<Check>)
    requires Sequential(start, cs)
    ensures forall t | t in FloodTimes(start, cs) || t in MsgTimes(start, cs) || t in CmdTimes(start, cs) :: Known(cs, t)
    ensures Strict(FloodTimes(start, cs)) && Strict(MsgTimes(start, cs)) && Strict(CmdTimes(start, cs))
    ensures Rising(FloodTimes(start, cs)) && Rising(MsgTimes(start, cs)) && Rising(CmdTimes(start, cs))
    decreases |cs|
  {
    hide Guarded, VerdictOn, Reaches, FloodTimes, MsgTimes, CmdTimes, Slides;
    NoChecks(start);
    if cs != [] {
      var before, c := cs[..|cs| - 1], cs[|cs| - 1];
      SequentialPrefix(start, cs);
      TimesAreKnown(start, before);
      Unfold(start, cs);
      forall t | Known(before, t) ensures Known(cs, t) && t < c.seen { KnownSnoc(cs, t); }
      assert forall t | c.seen <= t <= c.blockAt :: Known(cs, t) by { assert c in cs; }
      hide Known;
      if c.Message? {
        StrictSnoc(FloodTimes(start, before), c.floodAt);
        StrictSnoc(MsgTimes(start, before), c.msgAt);
      } else {
        StrictSnoc(CmdTimes(start, before), c.cmdAt);
      }
    }
  }

  lemma AllowedMeans(g: Guard, c: Check)
    requires Step(g, c).1 == Allowed
    ensures var g' := Step(g, c).0;
            if c.Message? then |g'.flood| <= FLOOD_LIMIT && |g'.msg| <= MSG_LIMIT else |g'.cmd| <= CMD_LIMIT
  {
  }

  /** The three windows of the guard. */
  datatype Window = Flood | Msg | Cmd {
    function Length(): real {
      if Flood? then FLOOD_WINDOW else if Msg? then MSG_WINDOW else CMD_WINDOW
    }

    function Limit(): nat {
      if Flood? then FLOOD_LIMIT else if Msg? then MSG_LIMIT else CMD_LIMIT
    }

    /** The check slides this window. */
    predicate Sees(c: Check) {
      if Cmd? then c.Command? else c.Message?
    }

    function Reading(c: Check): real
      requires Sees(c)
    {
      if Flood? then c.floodAt else if Msg? then c.msgAt else c.cmdAt
    }

    /** The attempts that reached it. */
    function Times(start: real, cs: seq<Check>): seq<real> {
      if Flood? then FloodTimes(start, cs) else if Msg? then MsgTimes(start, cs) else CmdTimes(start, cs)
    }
  }

  /** Number of checks allowed in the half-open stretch of a window after `from`. */
  function AllowedCount(start: real, cs: seq<Check>, w: Window, from: real): nat {
    if cs == [] then 0 else
      var c := cs[|cs| - 1];
      AllowedCount(start, cs[..|cs| - 1], w, from)
      + (if VerdictOn(start, cs) == Allowed && w.Sees(c) && from < w.Reading(c) <= from + w.Length() then 1 else 0)
  }

  lemma PassedCountSnoc(window: real, limit: nat, ts: seq<real>, t: real, from: real)
    ensures PassedCount(window, limit, ts + [t], from)
            == PassedCount(window, limit, ts, from)
               + (if |Slides(window, ts + [t])| <= limit && from < t <= from + window then 1 else 0)
  {
    assert (ts + [t])[..|ts|] == ts;
  }

  /** A check that is allowed has passed every window it slid. */
  lemma {:induction false} AllowedArePassed(start: real, cs: seq<Check>, w: Window, from: real)
    requires Sequential(start, cs)
    ensures AllowedCount(start, cs, w, from) <= PassedCount(w.Length(), w.Limit(), w.Times(start, cs), from)
    decreases |cs|
  {
    hide Guarded, VerdictOn, Reaches, FloodTimes, MsgTimes, CmdTimes, Slides, PassedCount, Step;
    NoChecks(start);
    if cs != [] {
      var before, c := cs[..|cs| - 1], cs[|cs| - 1];
      SequentialPrefix(start, cs);
      AllowedArePassed(start, before, w, from);
      Unfold(start, cs);
      WindowsRefine(start, cs);
      if VerdictOn(start, cs) == Allowed { AllowedMeans(Guarded(start, before), c); }
      if w.Sees(c) { PassedCountSnoc(w.Length(), w.Limit(), w.Times(start, before), w.Reading(c), from); }
    }
  }

  /** In every half-open stretch of five seconds at most 12 messages are allowed, of thirty
      seconds at most 30, and in every ten seconds at most 8 commands. */
  lemma AllowedBound(start: real, cs: seq<Check>, w: Window, from: real)
    requires Sequential(start, cs)
    ensures AllowedCount(start, cs, w, from) <= w.Limit()
  {
    hide PassedCount, AllowedCount, FloodTimes, MsgTimes, CmdTimes, Rising;
    TimesAreKnown(start, cs);
    AllowedArePassed(start, cs, w, from);
    WindowBound(w.Length(), w.Limit(), w.Times(start, cs), from);
  }

  // ---------------------------------------------------------------- verdicts

  /** The i-th check began a block. */
  predicate Blocks(start: real, cs: seq<Check>, i: nat)
    requires i < |cs|
  {
    VerdictOn(start, cs[..i + 1]) == JustBlocked
  }

  lemma BlocksPrefix(start: real, cs: seq<Check>, n: nat)
    requires n <= |cs|
    ensures forall i | 0 <= i < n :: Blocks(start, cs, i) == Blocks(start, cs[..n], i) && cs[i] == cs[..n][i]
  {
    hide VerdictOn;
    forall i | 0 <= i < n ensures Blocks(start, cs, i) == Blocks(start, cs[..n], i) {
      assert cs[..i + 1] == cs[..n][..i + 1];
    }
  }

  lemma LastBlocks(start: real, cs: seq<Check>)
    requires cs != []
    ensures Blocks(start, cs, |cs| - 1) <==> VerdictOn(start, cs) == JustBlocked
  {
    hide VerdictOn;
    assert cs[..|cs| - 1 + 1] == cs;
  }

  lemma {:induction false} BlockedUntilWhen(start: real, cs: seq<Check>)
    requires Sequential(start, cs)
    ensures var until := Guarded(start, cs).blockedUntil;
            && (forall i | 0 <= i < |cs| && Blocks(start, cs, i) :: cs[i].blockAt + BLOCK_DURATION <= until)
            && (until == start || exists i | 0 <= i < |cs| :: Blocks(start, cs, i) && until == cs[i].blockAt + BLOCK_DURATION)
    decreases |cs|
  {
    hide Guarded, VerdictOn, Blocks, Reaches, FloodTimes, MsgTimes, CmdTimes;
    NoChecks(start);
    if cs != [] {
      var n := |cs| - 1;
      SequentialPrefix(start, cs);
      BlockedUntilWhen(start, cs[..n]);
      BlocksPrefix(start, cs, n);
      LastBlocks(start, cs);
      Unfold(start, cs);
      assert forall i | 0 <= i < n :: cs[i].blockAt < cs[n].seen;
    }
  }

  /** A check is dropped on sight exactly while a block is live, and a block lasts sixty
      seconds; nothing of either kind is allowed meanwhile. */
  lemma DroppedExactly(start: real, cs: seq<Check>)
    requires Sequential(start, cs) && cs != []
    ensures VerdictOn(start, cs) == AlreadyBlocked <==>
            exists i | 0 <= i < |cs| - 1 :: Blocks(start, cs, i) && cs[|cs| - 1].seen < cs[i].blockAt + BLOCK_DURATION
  {
    hide Guarded, VerdictOn, Blocks, Reaches, FloodTimes, MsgTimes, CmdTimes;
    var n := |cs| - 1;
    SequentialPrefix(start, cs);
    BlockedUntilWhen(start, cs[..n]);
    BlocksPrefix(start, cs, n);
    Unfold(start, cs);
  }

  /** The verdict told from the history alone: a check that meets no live block is allowed
      exactly when the attempts of each window, this one included, are within its limit. */
  lemma AllowedExactly(start: real, cs: seq<Check>)
    requires Sequential(start, cs) && Reaches(start, cs)
    ensures var c := cs[|cs| - 1];
            VerdictOn(start, cs) == Allowed <==> match c
              case Message(_, floodAt, msgAt, _) =>
                && RecentCount(FLOOD_WINDOW, FloodTimes(start, cs), floodAt) <= FLOOD_LIMIT
                && RecentCount(MSG_WINDOW, MsgTimes(start, cs), msgAt) <= MSG_LIMIT
              case Command(_, cmdAt, _) => RecentCount(CMD_WINDOW, CmdTimes(start, cs), cmdAt) <= CMD_LIMIT
  {
    hide Guarded, VerdictOn, FloodTimes, MsgTimes, CmdTimes, Slides, RecentCount;
    var before, c := cs[..|cs| - 1], cs[|cs| - 1];
    Unfold(start, cs);
    WindowsRefine(start, cs);
    TimesAreKnown(start, cs);
    if c.Message? {
      StrictCounts(FLOOD_WINDOW, FloodTimes(start, cs));
      StrictCounts(MSG_WINDOW, MsgTimes(start, cs));
    } else {
      StrictCounts(CMD_WINDOW, CmdTimes(start, cs));
    }
  }

  lemma StrictCounts(window: real, ts: seq<real>)
    requires window > 0.0 && ts != [] && Strict(ts) && Rising(ts)
    ensures |Slides(window, ts)| == RecentCount(window, ts, ts[|ts| - 1])
  {
    CountIsExactly(window, ts);
  }
}

/** The guard's keys of one user, changed in place. */
module SpamGuardKeys {
  import opened SlidingWindows

  class SpamGuard {
    var flood: set<real>
    var msg: set<real>
    var cmd: set<real>
    var blockedUntil: real

    function Model(): Guard reads this {
      Guard(flood, msg, cmd, blockedUntil)
    }

    constructor (start: real)
      ensures Model() == Guard({}, {}, {}, start)
    {
      flood, msg, cmd, blockedUntil := {}, {}, {}, start;
    }

    /** Both windows are slid, also when the first is over its limit. */
    method CheckMessage(seen: real, floodAt: real, msgAt: real, blockAt: real) returns (verdict: Verdict)
      modifies this
      ensures (Model(), verdict) == Step(old(Model()), Message(seen, floodAt, msgAt, blockAt))
    {
      if seen < blockedUntil { return AlreadyBlocked; }
      flood := set t | t in flood && t > floodAt - FLOOD_WINDOW;
      flood := flood + {floodAt};
      var floodOk := |flood| <= FLOOD_LIMIT;
      msg := set t | t in msg && t > msgAt - MSG_WINDOW;
      msg := msg + {msgAt};
      var msgOk := |msg| <= MSG_LIMIT;
      if !floodOk || !msgOk {
        blockedUntil := blockAt + BLOCK_DURATION;
        return JustBlocked;
      }
      return Allowed;
    }

    method CheckCommand(seen: real, cmdAt: real, blockAt: real) returns (verdict: Verdict)
      modifies this
      ensures (Model(), verdict) == Step(old(Model()), Command(seen, cmdAt, blockAt))
    {
      if seen < blockedUntil { return AlreadyBlocked; }
      cmd := set t | t in cmd && t > cmdAt - CMD_WINDOW;
      cmd := cmd + {cmdAt};
      if |cmd| > CMD_LIMIT {
        blockedUntil := blockAt + BLOCK_DURATION;
        return JustBlocked;
      }
      return Allowed;
    }
  }
}
