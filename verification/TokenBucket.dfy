/** The token bucket in front of the Gemini API. Every try of every waiting task runs under
    one lock, so a run is one sequence of tries at clock readings that never go back. */
module TokenBuckets {

  datatype Bucket = Bucket(rate: real, capacity: real, tokens: real, last: real)

  predicate Valid(b: Bucket) {
    b.rate > 0.0 && b.capacity >= 1.0 && 0.0 <= b.tokens <= b.capacity
  }

  /** Tokens that flow in from one moment to a later one. */
  function Inflow(rate: real, from: real, to: real): real {
    (to - from) * rate
  }

  function Refill(b: Bucket, now: real): Bucket {
    var more := b.tokens + Inflow(b.rate, b.last, now);
    b.(tokens := if b.capacity <= more then b.capacity else more, last := now)
  }

  predicate Grants(b: Bucket, now: real) {
    Refill(b, now).tokens >= 1.0
  }

  /** One pass under the lock. */
  function Try(b: Bucket, now: real): Bucket {
    var b1 := Refill(b, now);
    if Grants(b, now) then b1.(tokens := b1.tokens - 1.0) else b1
  }

  /** How long a task that was refused sleeps. */
  function Wait(b: Bucket): real
    requires b.rate > 0.0
  {
    (1.0 - b.tokens) / b.rate
  }

  function Tries(b: Bucket, times: seq<real>): Bucket
    decreases |times|
  {
    if times == [] then b else Tries(Try(b, times[0]), times[1..])
  }

  /** Grants made from `from` to `to`, both included. */
  function GrantsIn(b: Bucket, times: seq<real>, from: real, to: real): nat
    decreases |times|
  {
    if times == [] then 0
    else (if Grants(b, times[0]) && from <= times[0] <= to then 1 else 0) + GrantsIn(Try(b, times[0]), times[1..], from, to)
  }

  /** Clock readings from `start` on. */
  predicate Monotonic(start: real, times: seq<real>)
    decreases |times|
  {
    times != [] ==> start <= times[0] && Monotonic(times[0], times[1..])
  }

  lemma InflowAdds(rate: real, a: real, b: real, c: real)
    requires rate > 0.0 && a <= b <= c
    ensures 0.0 <= Inflow(rate, a, b) <= Inflow(rate, a, c)
    ensures Inflow(rate, a, b) + Inflow(rate, b, c) == Inflow(rate, a, c)
    ensures Inflow(rate, a, a) == 0.0
  {
    var x, y := b - a, c - b;
    assert x * rate >= 0.0 && y * rate >= 0.0;
    assert (x + y) * rate == x * rate + y * rate;
  }

  lemma TryKeeps(b: Bucket, now: real)
    requires Valid(b) && b.last <= now
    ensures var b' := Try(b, now);
            Valid(b') && b'.last == now && b'.rate == b.rate && b'.capacity == b.capacity
    ensures Try(b, now).tokens + (if Grants(b, now) then 1.0 else 0.0) <= b.tokens + Inflow(b.rate, b.last, now)
    ensures Try(b, now).tokens + (if Grants(b, now) then 1.0 else 0.0) <= b.capacity
  {
    hide Inflow;
    InflowAdds(b.rate, b.last, now, now);
  }

  /** The number of tokens stays between zero and the capacity. */
  lemma {:induction false} TriesKeep(b: Bucket, times: seq<real>)
    requires Valid(b) && Monotonic(b.last, times)
    ensures Valid(Tries(b, times))
    decreases |times|
  {
    hide Inflow;
    if times != [] {
      TryKeeps(b, times[0]);
      TriesKeep(Try(b, times[0]), times[1..]);
    }
  }

  lemma {:induction false} NoGrantAfter(b: Bucket, times: seq<real>, from: real, to: real)
    requires Monotonic(b.last, times) && to < b.last
    ensures GrantsIn(b, times, from, to) == 0
    decreases |times|
  {
    if times != [] { NoGrantAfter(Try(b, times[0]), times[1..], from, to); }
  }

  /** From now on until `to`: what is in the bucket and what flows in meanwhile. */
  lemma {:induction false} SpendingBound(b: Bucket, times: seq<real>, from: real, to: real)
    requires Valid(b) && Monotonic(b.last, times) && b.last <= to
    ensures GrantsIn(b, times, from, to) as real <= b.tokens + Inflow(b.rate, b.last, to)
    decreases |times|
  {
    hide Inflow;
    InflowAdds(b.rate, b.last, b.last, to);
    if times != [] {
      var t := times[0];
      TryKeeps(b, t);
      if t <= to {
        InflowAdds(b.rate, b.last, t, to);
        SpendingBound(Try(b, t), times[1..], from, to);
      } else {
        NoGrantAfter(Try(b, t), times[1..], from, to);
      }
    }
  }

  /** In every interval of length d, at most capacity + rate * d grants. */
  lemma {:induction false} RateBound(b: Bucket, times: seq<real>, from: real, to: real)
    requires Valid(b) && Monotonic(b.last, times) && from <= to
    ensures GrantsIn(b, times, from, to) as real <= b.capacity + Inflow(b.rate, from, to)
    decreases |times|
  {
    hide Inflow;
    InflowAdds(b.rate, from, from, to);
    if times != [] {
      var t := times[0];
      TryKeeps(b, t);
      if t < from {
        RateBound(Try(b, t), times[1..], from, to);
      } else if t <= to {
        InflowAdds(b.rate, from, t, to);
        SpendingBound(Try(b, t), times[1..], from, to);
      } else {
        NoGrantAfter(Try(b, t), times[1..], from, to);
      }
    }
  }

  // ---------------------------------------------------------------- the Gemini limiter

  /** The one bucket of the bot, `rpm` being the configured requests per minute. */
  function GeminiLimiter(rpm: nat, now: real): Bucket {
    Bucket(rpm as real / 60.0, rpm as real, rpm as real, now)
  }

  predicate IsGeminiLimiter(b: Bucket, rpm: nat) {
    Valid(b) && b.rate == rpm as real / 60.0 && b.capacity == rpm as real
  }

  lemma MinuteInflow(b: Bucket, rpm: nat, from: real)
    requires b.rate == rpm as real / 60.0
    ensures Inflow(b.rate, from, from + 60.0) == rpm as real
  {
  }

  /** No minute sees more than twice the configured number of grants. */
  lemma MinuteBound(rpm: nat, b: Bucket, times: seq<real>, from: real)
    requires IsGeminiLimiter(b, rpm) && Monotonic(b.last, times)
    ensures GrantsIn(b, times, from, from + 60.0) <= 2 * rpm
  {
    hide Inflow;
    RateBound(b, times, from, from + 60.0);
    MinuteInflow(b, rpm, from);
  }

  function Repeat(t: real, n: nat): seq<real> {
    seq(n, i => t)
  }

  /** Tries at one instant are granted as long as whole tokens last. */
  lemma {:induction false} BurstAt(b: Bucket, t: real, n: nat, from: real, to: real)
    requires Valid(b) && b.last == t && n as real <= b.tokens && from <= t <= to
    ensures GrantsIn(b, Repeat(t, n), from, to) == n && Monotonic(t, Repeat(t, n))
    decreases n
  {
    hide Inflow;
    if n > 0 {
      assert Repeat(t, n)[1..] == Repeat(t, n - 1);
      InflowAdds(b.rate, t, t, t);
      TryKeeps(b, t);
      BurstAt(Try(b, t), t, n - 1, from, to);
    }
  }

  lemma RefillThenBurst(b: Bucket, t: real, n: nat, from: real, to: real)
    requires Valid(b) && b.last <= t && n as real <= Refill(b, t).tokens && from <= t <= to && n > 0
    ensures GrantsIn(b, Repeat(t, n), from, to) == n && Monotonic(b.last, Repeat(t, n))
  {
    hide Inflow;
    var full := Refill(b, t);
    InflowAdds(b.rate, b.last, t, t);
    BurstAt(full, t, n, from, to);
    assert Refill(full, t) == full;
    assert Try(b, t) == Try(full, t) && (Grants(b, t) <==> Grants(full, t));
  }

  lemma {:induction false} GrantsAppend(b: Bucket, s: seq<real>, t: seq<real>, from: real, to: real)
    ensures GrantsIn(b, s + t, from, to) == GrantsIn(b, s, from, to) + GrantsIn(Tries(b, s), t, from, to)
    decreases |s|
  {
    if s == [] {
      assert s + t == t;
    } else {
      assert (s + t)[1..] == s[1..] + t;
      GrantsAppend(Try(b, s[0]), s[1..], t, from, to);
    }
  }

  /** The bound is reached: a full bucket emptied at once and emptied again a minute later. */
  lemma MinuteBoundIsReached(rpm: nat, now: real)
    requires rpm >= 1
    ensures var times := Repeat(now, rpm) + Repeat(now + 60.0, rpm);
            GrantsIn(GeminiLimiter(rpm, now), times, now, now + 60.0) == 2 * rpm
  {
    hide Inflow;
    var b := GeminiLimiter(rpm, now);
    BurstAt(b, now, rpm, now, now + 60.0);
    TriesKeep(b, Repeat(now, rpm));
    AfterRepeat(b, now, rpm);
    var b1 := Tries(b, Repeat(now, rpm));
    MinuteInflow(b, rpm, now);
    RefillThenBurst(b1, now + 60.0, rpm, now, now + 60.0);
    GrantsAppend(b, Repeat(now, rpm), Repeat(now + 60.0, rpm), now, now + 60.0);
  }

  lemma {:induction false} AfterRepeat(b: Bucket, t: real, n: nat)
    requires Valid(b) && b.last == t
    ensures var b' := Tries(b, Repeat(t, n)); b'.last == t && b'.rate == b.rate && b'.capacity == b.capacity
    decreases n
  {
    hide Inflow;
    if n > 0 {
      assert Repeat(t, n)[1..] == Repeat(t, n - 1);
      TryKeeps(b, t);
      AfterRepeat(Try(b, t), t, n - 1);
    }
  }

  /** The limit the module documents, "rpm per minute", holds for the coming minute
      exactly when the bucket has no whole token left. */
  lemma MinuteLimitExactly(rpm: nat, b: Bucket)
    requires IsGeminiLimiter(b, rpm)
    ensures (forall times | Monotonic(b.last, times) :: GrantsIn(b, times, b.last, b.last + 60.0) <= rpm) <==> b.tokens < 1.0
  {
    hide Inflow;
    var end := b.last + 60.0;
    MinuteInflow(b, rpm, b.last);
    if b.tokens < 1.0 {
      forall times | Monotonic(b.last, times) ensures GrantsIn(b, times, b.last, end) <= rpm {
        SpendingBound(b, times, b.last, end);
      }
    } else {
      OneMoreThanTheLimit(rpm, b);
    }
  }

  lemma OneMoreThanTheLimit(rpm: nat, b: Bucket)
    requires IsGeminiLimiter(b, rpm) && b.tokens >= 1.0
    ensures var times := [b.last] + Repeat(b.last + 60.0, rpm);
            Monotonic(b.last, times) && GrantsIn(b, times, b.last, b.last + 60.0) == rpm + 1
  {
    hide Inflow;
    var end := b.last + 60.0;
    var b1 := Try(b, b.last);
    InflowAdds(b.rate, b.last, b.last, end);
    TryKeeps(b, b.last);
    MinuteInflow(b, rpm, b.last);
    RefillThenBurst(b1, end, rpm, b.last, end);
    var times := [b.last] + Repeat(end, rpm);
    assert times[1..] == Repeat(end, rpm);
  }

  // ---------------------------------------------------------------- waiting

  /** The sleep is as long as needed and no longer: when nobody else comes in between, a
      refused task's next try is granted exactly if it is made no earlier than that. */
  lemma WaitIsExact(b: Bucket, now: real, later: real)
    requires Valid(b) && b.last <= now <= later && !Grants(b, now)
    ensures Grants(Try(b, now), later) <==> later >= now + Wait(Try(b, now))
  {
    var b1 := Try(b, now);
    var w := Wait(b1);
    assert w * b1.rate == 1.0 - b1.tokens;
    if later >= now + w {
      InflowAdds(b1.rate, now, now + w, later);
    } else {
      StrictlyLess(b1.rate, later - now, w);
    }
  }

  lemma StrictlyLess(rate: real, d: real, w: real)
    requires rate > 0.0 && d < w
    ensures d * rate < w * rate
  {
  }
}

/** The limiter object, changed in place. */
module TokenBucketObject {
  import opened TokenBuckets

  class TokenBucket {
    const rate: real
    const capacity: real
    var tokens: real
    var last: real

    function Model(): Bucket reads this {
      Bucket(rate, capacity, tokens, last)
    }

    constructor (rate: real, capacity: real, now: real)
      ensures Model() == Bucket(rate, capacity, capacity, now)
    {
      this.rate, this.capacity, tokens, last := rate, capacity, capacity, now;
    }

    /** One pass under the lock. */
    method TryOnce(now: real) returns (granted: bool)
      requires Valid(Model()) && last <= now
      modifies this`tokens, this`last
      ensures Model() == Try(old(Model()), now) && Valid(Model()) && last == now
      ensures granted == Grants(old(Model()), now)
    {
      TryKeeps(Model(), now);
      var more := tokens + Inflow(rate, last, now);
      tokens := if capacity <= more then capacity else more;
      last := now;
      granted := tokens >= 1.0;
      if granted { tokens := tokens - 1.0; }
    }

    /** The passes of other tasks while this one sleeps. */
    method LetOthersTry(times: seq<real>)
      requires Valid(Model()) && Monotonic(last, times)
      modifies this`tokens, this`last
      ensures Model() == Tries(old(Model()), times) && Valid(Model())
      ensures forall later | Monotonic(old(last), times + later) :: Monotonic(last, later)
    {
      for i := 0 to |times|
        invariant Valid(Model()) && Monotonic(last, times[i..])
        invariant Tries(Model(), times[i..]) == Tries(old(Model()), times)
        invariant forall later | Monotonic(old(last), times + later) :: Monotonic(last, times[i..] + later)
      {
        assert times[i..][1..] == times[i + 1..];
        assert forall later: seq<real> :: (times[i..] + later)[1..] == times[i + 1..] + later;
        var granted := TryOnce(times[i]);
      }
      assert forall later: seq<real> :: times[|times|..] + later == later;
    }

    /** The retry loop of a task among others. It stops at its first grant; a task that
        sleeps as told, and meanwhile is alone, is granted on its second try at the latest. */
    method Acquire(turns: seq<Turn>) returns (tries: nat, granted: bool)
      requires Valid(Model()) && Monotonic(last, Readings(turns))
      modifies this`tokens, this`last
      ensures tries <= |turns| && Model() == Tries(old(Model()), Readings(turns[..tries])) && Valid(Model())
      ensures granted <==> tries > 0 && GrantedOn(old(Model()), turns, tries - 1)
      ensures !granted ==> tries == |turns|
      ensures forall k | 0 <= k < tries - 1 :: !GrantedOn(old(Model()), turns, k)
      ensures |turns| >= 2 && turns[1].others == [] && turns[1].now >= turns[0].now + FirstSleep(old(Model()), turns)
              ==> granted && tries <= 2
    {
      hide Tries, Readings, Inflow;
      ghost var b := Model();
      NoReadings(b, turns);
      tries, granted := 0, false;
      while tries < |turns| && !granted
        invariant tries <= |turns| && Model() == Tries(b, Readings(turns[..tries])) && Valid(Model())
        invariant Monotonic(last, Readings(turns[tries..]))
        invariant granted <==> tries > 0 && GrantedOn(b, turns, tries - 1)
        invariant forall k | 0 <= k < tries - 1 :: !GrantedOn(b, turns, k)
        decreases |turns| - tries, !granted
      {
        var turn := turns[tries];
        NextTurn(last, turns[tries..]);
        assert turns[tries..][1..] == turns[tries + 1..];
        LetOthersTry(turn.others);
        TurnAppends(b, turns, tries);
        granted := TryOnce(turn.now);
        tries := tries + 1;
      }
      AloneGranted(b, turns, tries, granted);
    }
  }

  /** One pass of the task, after those that other tasks made while it slept. */
  datatype Turn = Turn(others: seq<real>, now: real)

  /** The clock readings of all tasks, in the order of the lock. */
  function Readings(turns: seq<Turn>): seq<real> {
    if turns == [] then [] else Readings(turns[..|turns| - 1]) + turns[|turns| - 1].others + [turns[|turns| - 1].now]
  }

  /** The task is granted on its turn `k`. */
  predicate GrantedOn(b: Bucket, turns: seq<Turn>, k: nat)
    requires k < |turns|
  {
    Grants(Tries(b, Readings(turns[..k]) + turns[k].others), turns[k].now)
  }

  /** How long the task sleeps after its first turn, if that is refused. */
  function FirstSleep(b: Bucket, turns: seq<Turn>): real
    requires Valid(b) && turns != [] && Monotonic(b.last, Readings(turns))
  {
    AfterFirstTurn(b, turns);
    Wait(Try(Tries(b, turns[0].others), turns[0].now))
  }

  lemma NoReadings(b: Bucket, turns: seq<Turn>)
    ensures Tries(b, Readings(turns[..0])) == b && turns[0..] == turns
  {
  }

  lemma {:induction false} TriesAppend(b: Bucket, s: seq<real>, t: seq<real>)
    ensures Tries(b, s + t) == Tries(Tries(b, s), t)
    decreases |s|
  {
    if s == [] {
      assert s + t == t;
    } else {
      assert (s + t)[1..] == s[1..] + t;
      TriesAppend(Try(b, s[0]), s[1..], t);
    }
  }

  /** The readings of a run of turns begin with those of its first turn. */
  lemma {:induction false} ReadingsCons(turns: seq<Turn>)
    requires turns != []
    ensures Readings(turns) == turns[0].others + [turns[0].now] + Readings(turns[1..])
    decreases |turns|
  {
    ReadingsSnoc(turns);
    if |turns| == 1 {
      assert turns[..0] == [] && turns[1..] == [];
    } else {
      hide Readings;
      var init, rest := turns[..|turns| - 1], turns[1..];
      var o, x := turns[|turns| - 1].others, [turns[|turns| - 1].now];
      ReadingsCons(init);
      ReadingsSnoc(rest);
      assert init[1..] == rest[..|rest| - 1];
      Glue(turns[0].others + [turns[0].now], Readings(init[1..]), o, x, Readings(init), Readings(rest), Readings(turns));
    }
  }

  lemma Glue(a: seq<real>, b: seq<real>, c: seq<real>, d: seq<real>, ab: seq<real>, bcd: seq<real>, abcd: seq<real>)
    requires ab == a + b && bcd == b + c + d && abcd == ab + c + d
    ensures abcd == a + bcd
  {
  }

  lemma ReadingsSnoc(turns: seq<Turn>)
    requires turns != []
    ensures Readings(turns) == Readings(turns[..|turns| - 1]) + turns[|turns| - 1].others + [turns[|turns| - 1].now]
  {
  }

  lemma {:induction false} MonotonicAppend(start: real, s: seq<real>, t: seq<real>)
    requires Monotonic(start, s + t)
    ensures Monotonic(start, s)
    decreases |s|
  {
    if s != [] {
      assert (s + t)[1..] == s[1..] + t;
      MonotonicAppend(s[0], s[1..], t);
    }
  }

  lemma NextTurn(start: real, turns: seq<Turn>)
    requires turns != [] && Monotonic(start, Readings(turns))
    ensures Monotonic(start, turns[0].others)
    ensures Monotonic(start, turns[0].others + ([turns[0].now] + Readings(turns[1..])))
    ensures ([turns[0].now] + Readings(turns[1..]))[1..] == Readings(turns[1..])
  {
    ReadingsCons(turns);
    var rest := [turns[0].now] + Readings(turns[1..]);
    assert turns[0].others + [turns[0].now] + Readings(turns[1..]) == turns[0].others + rest;
    MonotonicAppend(start, turns[0].others, rest);
  }

  lemma TurnAppends(b: Bucket, turns: seq<Turn>, k: nat)
    requires k < |turns|
    ensures Tries(Tries(b, Readings(turns[..k])), turns[k].others) == Tries(b, Readings(turns[..k]) + turns[k].others)
    ensures Tries(b, Readings(turns[..k + 1])) == Try(Tries(b, Readings(turns[..k]) + turns[k].others), turns[k].now)
  {
    var s := Readings(turns[..k]) + turns[k].others;
    TriesAppend(b, Readings(turns[..k]), turns[k].others);
    TriesAppend(b, s, [turns[k].now]);
    assert turns[..k + 1][..k] == turns[..k];
    assert [turns[k].now][1..] == [];
  }

  lemma {:induction false} TriesMoveOn(b: Bucket, s: seq<real>, t: seq<real>)
    requires Valid(b) && Monotonic(b.last, s + t)
    ensures Valid(Tries(b, s)) && Tries(b, s).rate == b.rate && Monotonic(Tries(b, s).last, t)
    decreases |s|
  {
    if s == [] {
      assert s + t == t;
    } else {
      assert (s + t)[1..] == s[1..] + t && (s + t)[0] == s[0];
      TryKeeps(b, s[0]);
      TriesMoveOn(Try(b, s[0]), s[1..], t);
    }
  }

  lemma AfterFirstTurn(b: Bucket, turns: seq<Turn>)
    requires Valid(b) && turns != [] && Monotonic(b.last, Readings(turns))
    ensures var before := Tries(b, turns[0].others);
            && Valid(before) && before.last <= turns[0].now && Valid(Try(before, turns[0].now))
            && Monotonic(turns[0].now, Readings(turns[1..]))
  {
    NextTurn(b.last, turns);
    TriesMoveOn(b, turns[0].others, [turns[0].now] + Readings(turns[1..]));
    TryKeeps(Tries(b, turns[0].others), turns[0].now);
  }

  /** A refused task that slept as told, while no other task tried, is granted next. */
  lemma AloneGranted(b: Bucket, turns: seq<Turn>, tries: nat, granted: bool)
    requires Valid(b) && Monotonic(b.last, Readings(turns)) && tries <= |turns| && (!granted ==> tries == |turns|)
    requires granted <==> tries > 0 && GrantedOn(b, turns, tries - 1)
    requires forall k | 0 <= k < tries - 1 :: !GrantedOn(b, turns, k)
    ensures |turns| >= 2 && turns[1].others == [] && turns[1].now >= turns[0].now + FirstSleep(b, turns)
            ==> granted && tries <= 2
  {
    hide Tries, GrantedOn, Try, Grants, Monotonic, Readings;
    if |turns| >= 2 && turns[1].others == [] && turns[1].now >= turns[0].now + FirstSleep(b, turns) {
      SecondGrant(b, turns);
    }
  }

  lemma SecondGrant(b: Bucket, turns: seq<Turn>)
    requires |turns| >= 2 && Valid(b) && Monotonic(b.last, Readings(turns)) && turns[1].others == []
    requires turns[1].now >= turns[0].now + FirstSleep(b, turns)
    ensures GrantedOn(b, turns, 0) || GrantedOn(b, turns, 1)
  {
    AfterFirstTurn(b, turns);
    ReadingsCons(turns[1..]);
    assert Readings(turns[1..])[0] == turns[1].now;
    TurnAppends(b, turns, 0);
    assert turns[..0] == [] && [] + turns[0].others == turns[0].others && Readings(turns[..0]) == [];
    assert Readings(turns[..1]) + [] == Readings(turns[..1]);
    hide Tries, Try, Readings;
    var before := Tries(b, turns[0].others);
    if !Grants(before, turns[0].now) { WaitIsExact(before, turns[0].now, turns[1].now); }
  }
}
