/**
 * Lookups that run later than the time they present to the request limiter. A lookup reads the clock once, so
 * at a later provider it presents the time at which it began; an answer marks a cooldown with that time too.
 */
module ProviderLag {
  import opened ProviderLimiter
  import opened ProviderStaleness

  /** The actual times at which a provider was asked, for a run whose calls happen at the times `ran`. */
  function RanTimes(p: Providers, run: seq<Call>, ran: seq<int>, key: string, limit: nat): seq<int>
    requires |ran| == |run|
    decreases |run|
  {
    if run == [] then []
    else
      var call := run[0];
      (if call.key == key && Admits(Existing(p, key, call.now), call, limit) then [ran[0]] else [])
      + RanTimes(Apply(p, call, limit), run[1..], ran[1..], key, limit)
  }

  /** No call happens before the time it presents, and no lookup more than `lag` seconds after it. */
  ghost predicate LateBy(run: seq<Call>, ran: seq<int>, lag: nat) {
    |ran| == |run| && forall i | 0 <= i < |run| :: run[i].now <= ran[i] && (run[i].Ask? ==> ran[i] <= run[i].now + lag)
  }

  ghost predicate InOrder(ran: seq<int>) {
    forall i, j | 0 <= i < j < |ran| :: ran[i] <= ran[j]
  }

  // A bound for calls that are not before their window

  lemma {:induction false} CountInSplits(times: seq<int>, from: int, mid: int, to: int)
    requires from <= mid <= to
    ensures CountIn(times, from, to) == CountIn(times, from, mid) + CountIn(times, mid, to)
  {
    if times != [] {
      CountInSplits(times[1..], from, mid, to);
    }
  }

  lemma {:induction false} CountInEmpty(times: seq<int>, at: int)
    ensures CountIn(times, at, at) == 0
  {
    if times != [] {
      CountInEmpty(times[1..], at);
    }
  }

  lemma {:induction false} ManyMinutes(run: seq<Call>, key: string, limit: nat, from: int, minutes: nat)
    requires Within(map[], run, key, limit, 0)
    ensures CountIn(Admissions(map[], run, key, limit), from, from + WINDOW * minutes) <= 2 * limit * minutes
  {
    var times := Admissions(map[], run, key, limit);
    if minutes == 0 {
      CountInEmpty(times, from);
    } else {
      var last := from + WINDOW * (minutes - 1);
      ManyMinutes(run, key, limit, from, minutes - 1);
      AtMostTwiceWithoutStaleCalls(run, key, limit, last);
      CountInSplits(times, from, last, last + WINDOW);
      assert 2 * limit * minutes == 2 * limit * (minutes - 1) + 2 * limit;
    }
  }

  lemma {:induction false} LagWidens(
      p: Providers, run: seq<Call>, ran: seq<int>, key: string, limit: nat, lag: nat, from: int, to: int)
    requires LateBy(run, ran, lag)
    ensures CountIn(RanTimes(p, run, ran, key, limit), from, to) <= CountIn(Admissions(p, run, key, limit), from - lag, to)
    decreases |run|
  {
    if run != [] {
      var call := run[0];
      var admitted := call.key == key && Admits(Existing(p, key, call.now), call, limit);
      assert run[0].now <= ran[0];
      assert forall i | 0 <= i < |run| - 1 :: run[1..][i] == run[i + 1] && ran[1..][i] == ran[i + 1];
      LagWidens(Apply(p, call, limit), run[1..], ran[1..], key, limit, lag, from, to);
      CountInAppend(if admitted then [ran[0]] else [], RanTimes(Apply(p, call, limit), run[1..], ran[1..], key, limit), from, to);
      CountInAppend(if admitted then [call.now] else [], Admissions(Apply(p, call, limit), run[1..], key, limit), from - lag, to);
    }
  }

  /**
   * If no call presents a time before the start of the window it meets, in whatever order, and lookups run up to
   * m minutes late, a minute sees at most 2L(m + 1) of them.
   */
  lemma LateLookupsPerMinute(run: seq<Call>, ran: seq<int>, key: string, limit: nat, minutes: nat, from: int)
    requires Within(map[], run, key, limit, 0) && LateBy(run, ran, WINDOW * minutes)
    ensures InMinute(RanTimes(map[], run, ran, key, limit), from) <= 2 * limit * (minutes + 1)
  {
    LagWidens(map[], run, ran, key, limit, WINDOW * minutes, from, from + WINDOW);
    ManyMinutes(run, key, limit, from - WINDOW * minutes, minutes + 1);
    assert from - WINDOW * minutes + WINDOW * (minutes + 1) == from + WINDOW;
  }

  // No bound when calls may come out of order

  /** Bursts one second before their window, again and again. */
  function Rounds(key: string, limit: nat, start: int, i: nat, n: nat): seq<Call>
    requires limit >= 1 && i <= n
    decreases n - i
  {
    if i == n then [] else Round(key, limit, start - 1, start + 59, WINDOW * i, Rounds(key, limit, start, i + 1, n))
  }

  /** Lookups a minute apart, a refused call that opens an empty window, and n rounds in it. */
  function LateRun(key: string, limit: nat, n: nat): seq<Call>
    requires limit >= 1
  {
    [Ask(key, 0)] + Earlier(key, 1, n + 2, Opening(key, limit, n))
  }

  function Opening(key: string, limit: nat, n: nat): seq<Call>
    requires limit >= 1
  {
    Cooled(key, WINDOW * (n + 2), WINDOW * (n + 1), 0, Rounds(key, limit, WINDOW * (n + 2), 1, n + 1))
  }

  lemma {:induction false} RoundsAdd(start: int, until: int, i: nat, n: nat, key: string, limit: nat)
    requires limit >= 1 && i <= n && until < start && WINDOW * (n - 1) + COOLDOWN < start
    ensures Adds(RateState(start, [], until), Rounds(key, limit, start, i, n), key, limit, start - 1, limit * (n - i), Times(i, n))
    decreases n - i
  {
    if i < n {
      var rest := Rounds(key, limit, start, i + 1, n);
      RoundsAdd(start, WINDOW * i + COOLDOWN, i + 1, n, key, limit);
      RoundAdds(start, until, start - 1, start + 59, WINDOW * i, rest, key, limit, start - 1, limit * (n - (i + 1)), Times(i + 1, n));
      assert Times(i + 1, n) + multiset{WINDOW * i} == Times(i, n);
      assert limit * (n - i) == limit + limit * (n - (i + 1));
    }
  }

  lemma {:induction false} OneMoreLookup(i: nat, n: nat)
    requires i <= n
    ensures Times(i, n + 1) == Times(i, n) + multiset{WINDOW * n}
    decreases n - i
  {
    if i < n {
      OneMoreLookup(i + 1, n);
    }
  }

  lemma LookupsInRun(n: nat)
    ensures Times(1, n + 1) + multiset{0} + multiset{WINDOW * (n + 1)} == multiset{0} + Times(1, n + 2)
  {
    OneMoreLookup(1, n + 1);
  }

  /** A call refused after the last of the lookups opens an empty window for the rounds. */
  lemma RefusalOpens(i: nat, rest: seq<Call>, key: string, limit: nat, a: int, n: nat, open: multiset<int>)
    requires Adds(RateState(WINDOW * (i + 1), [], COOLDOWN), rest, key, limit, a, n, open)
    ensures Adds(OneLookup(i), Cooled(key, WINDOW * (i + 1), WINDOW * i, 0, rest), key, limit, a, n,
                 open + multiset{0} + multiset{WINDOW * i})
  {
    CooledAdds(OneLookup(i), RateState(WINDOW * (i + 1), [], COOLDOWN), WINDOW * (i + 1), WINDOW * i, 0, rest, key, limit, a, n, open);
  }

  lemma OpeningAdds(key: string, limit: nat, n: nat)
    requires limit >= 1
    ensures Adds(OneLookup(n + 1), Opening(key, limit, n), key, limit, WINDOW * (n + 2) - 1, limit * n,
                 multiset{0} + Times(1, n + 2))
  {
    var start, rounds := WINDOW * (n + 2), Rounds(key, limit, WINDOW * (n + 2), 1, n + 1);
    RoundsAdd(start, COOLDOWN, 1, n + 1, key, limit);
    RefusalOpens(n + 1, rounds, key, limit, start - 1, limit * n, Times(1, n + 1));
    LookupsInRun(n);
  }

  lemma LateRunAdds(key: string, limit: nat, n: nat)
    requires limit >= 1
    ensures var run := LateRun(key, limit, n);
            && Tally(map[], run, key, limit, WINDOW * (n + 2) - 1) == limit * n
            && Within(map[], run, key, limit, 1) && Answering(map[], run, key, limit, multiset{})
  {
    var a := WINDOW * (n + 2) - 1;
    OpeningAdds(key, limit, n);
    EarlierAreAdmitted(key, 1, n + 2, Opening(key, limit, n), limit, a, 1);
    FirstCall(key, Earlier(key, 1, n + 2, Opening(key, limit, n)), limit, a, 1);
  }

  // The actual times of that run

  /** The lookups a minute apart run on time, and all that follows a minute after the bursts begin. */
  function LateRunTimes(n: nat, length: nat): seq<int> {
    seq(length, i requires 0 <= i => if i < n + 2 then WINDOW * i else WINDOW * (n + 2) + 59)
  }

  /** Calls that can happen at start + 59 if lookups may be a minute late. */
  ghost predicate AroundStart(run: seq<Call>, start: int) {
    forall i | 0 <= i < |run| :: run[i].now <= start + 59 && (run[i].Ask? ==> run[i].now >= start - 1)
  }

  lemma CooledIsAround(key: string, now: int, mark: int, mark': int, rest: seq<Call>, start: int)
    requires AroundStart(rest, start) && start - 1 <= now <= start + 59 && mark <= start && mark' <= start
    ensures AroundStart(Cooled(key, now, mark, mark', rest), start)
  {
  }

  lemma {:induction false} RoundsAreAround(key: string, limit: nat, start: int, i: nat, n: nat)
    requires limit >= 1 && i <= n && WINDOW * n < start
    ensures AroundStart(Rounds(key, limit, start, i, n), start)
    decreases n - i
  {
    if i < n {
      RoundsAreAround(key, limit, start, i + 1, n);
      BurstTimes(key, start - 1, limit - 1);
      CooledIsAround(key, start + 59, start - 1, WINDOW * i, Rounds(key, limit, start, i + 1, n), start);
    }
  }

  lemma {:induction false} EarlierCalls(key: string, i: nat, n: nat, rest: seq<Call>)
    requires i <= n
    ensures |Earlier(key, i, n, rest)| == n - i + |rest|
    ensures forall j | 0 <= j < n - i :: Earlier(key, i, n, rest)[j] == Ask(key, WINDOW * (i + j))
    ensures Earlier(key, i, n, rest)[n - i..] == rest
    decreases n - i
  {
    if i < n {
      EarlierCalls(key, i + 1, n, rest);
    }
  }

  lemma LateRunIsLate(key: string, limit: nat, n: nat)
    requires limit >= 1
    ensures var run := LateRun(key, limit, n);
            LateBy(run, LateRunTimes(n, |run|), WINDOW) && InOrder(LateRunTimes(n, |run|))
    ensures var run, a := LateRun(key, limit, n), WINDOW * (n + 2) - 1;
            Carries(run, LateRunTimes(n, |run|), a, a + WINDOW)
  {
    var run, start, opening := LateRun(key, limit, n), WINDOW * (n + 2), Opening(key, limit, n);
    RoundsAreAround(key, limit, start, 1, n + 1);
    CooledIsAround(key, start, WINDOW * (n + 1), 0, Rounds(key, limit, start, 1, n + 1), start);
    EarlierCalls(key, 1, n + 2, opening);
    forall i | 0 <= i < |run|
      ensures i < n + 2 ==> run[i] == Ask(key, WINDOW * i)
      ensures i >= n + 2 ==> run[i] == opening[i - (n + 2)]
    {
    }
  }

  /** Lookups with presented times in the minute from `a` happen in the minute from `b`. */
  ghost predicate Carries(run: seq<Call>, ran: seq<int>, a: int, b: int) {
    |ran| == |run| && forall i | 0 <= i < |run| :: run[i].Ask? && a <= run[i].now < a + WINDOW ==> b <= ran[i] < b + WINDOW
  }

  lemma CarriedRest(run: seq<Call>, ran: seq<int>, a: int, b: int)
    requires Carries(run, ran, a, b) && run != []
    ensures run[0].Ask? && a <= run[0].now < a + WINDOW ==> b <= ran[0] < b + WINDOW
    ensures Carries(run[1..], ran[1..], a, b)
  {
    assert forall i | 0 <= i < |run| - 1 :: run[1..][i] == run[i + 1] && ran[1..][i] == ran[i + 1];
  }

  lemma {:induction false} CarriedTimes(p: Providers, run: seq<Call>, ran: seq<int>, key: string, limit: nat, a: int, b: int)
    requires Carries(run, ran, a, b)
    ensures InMinute(RanTimes(p, run, ran, key, limit), b) >= Tally(p, run, key, limit, a)
    decreases |run|
  {
    if run != [] {
      var call := run[0];
      var admitted := call.key == key && Admits(Existing(p, key, call.now), call, limit);
      CarriedRest(run, ran, a, b);
      CarriedTimes(Apply(p, call, limit), run[1..], ran[1..], key, limit, a, b);
      TallyHead(p, run, key, limit, a);
      CountInAppend(if admitted then [ran[0]] else [], RanTimes(Apply(p, call, limit), run[1..], ran[1..], key, limit),
                    b, b + WINDOW);
    }
  }

  /**
   * For every limit and every n there is a run, in which lookups are at most a minute late and marks answer them,
   * that asks the provider n times the limit within one minute.
   */
  lemma UnorderedLateLookups(key: string, limit: nat, n: nat)
    requires limit >= 1
    ensures var run := LateRun(key, limit, n);
            var ran := LateRunTimes(n, |run|);
            && LateBy(run, ran, WINDOW) && InOrder(ran) && Answering(map[], run, key, limit, multiset{})
            && InMinute(RanTimes(map[], run, ran, key, limit), WINDOW * (n + 2) + 59) >= limit * n
  {
    var run, a := LateRun(key, limit, n), WINDOW * (n + 2) - 1;
    LateRunAdds(key, limit, n);
    LateRunIsLate(key, limit, n);
    CarriedTimes(map[], run, LateRunTimes(n, |run|), key, limit, a, a + WINDOW);
  }

  // A bound when lookups are less than a minute late

  /** The admissions that present a time in [lo, hi) and happen in the minute from `a`. */
  function Pairs(p: Providers, run: seq<Call>, ran: seq<int>, key: string, limit: nat, lo: int, hi: int, a: int): nat
    requires |ran| == |run|
    decreases |run|
  {
    if run == [] then 0
    else Pair(p, run[0], ran[0], key, limit, lo, hi, a) + Pairs(Apply(p, run[0], limit), run[1..], ran[1..], key, limit, lo, hi, a)
  }

  function Pair(p: Providers, call: Call, ran: int, key: string, limit: nat, lo: int, hi: int, a: int): nat {
    if call.key == key && Admits(Existing(p, key, call.now), call, limit) && lo <= call.now < hi && a <= ran < a + WINDOW
    then 1 else 0
  }

  lemma {:induction false} PairsSplit(
      p: Providers, run: seq<Call>, ran: seq<int>, key: string, limit: nat, lo: int, mid: int, hi: int, a: int)
    requires |ran| == |run| && lo <= mid <= hi
    ensures Pairs(p, run, ran, key, limit, lo, hi, a)
            == Pairs(p, run, ran, key, limit, lo, mid, a) + Pairs(p, run, ran, key, limit, mid, hi, a)
    decreases |run|
  {
    if run != [] {
      PairsSplit(Apply(p, run[0], limit), run[1..], ran[1..], key, limit, lo, mid, hi, a);
    }
  }

  lemma {:induction false} MinuteIsPairs(p: Providers, run: seq<Call>, ran: seq<int>, key: string, limit: nat, lag: nat, a: int)
    requires LateBy(run, ran, lag)
    ensures InMinute(RanTimes(p, run, ran, key, limit), a) == Pairs(p, run, ran, key, limit, a - lag, a + WINDOW, a)
    decreases |run|
  {
    if run != [] {
      var call := run[0];
      var admitted := call.key == key && Admits(Existing(p, key, call.now), call, limit);
      assert run[0].now <= ran[0];
      LateRest(run, ran, lag);
      MinuteIsPairs(Apply(p, call, limit), run[1..], ran[1..], key, limit, lag, a);
      CountInAppend(if admitted then [ran[0]] else [], RanTimes(Apply(p, call, limit), run[1..], ran[1..], key, limit),
                    a, a + WINDOW);
    }
  }

  lemma LateRest(run: seq<Call>, ran: seq<int>, lag: nat)
    requires LateBy(run, ran, lag) && run != []
    ensures LateBy(run[1..], ran[1..], lag)
  {
    assert forall i | 0 <= i < |run| - 1 :: run[1..][i] == run[i + 1] && ran[1..][i] == ran[i + 1];
  }

  lemma OrderRest(ran: seq<int>)
    requires InOrder(ran) && ran != []
    ensures InOrder(ran[1..]) && forall i | 0 <= i < |ran| - 1 :: ran[0] <= ran[1..][i]
  {
    assert forall i | 0 <= i < |ran| - 1 :: ran[1..][i] == ran[i + 1];
  }

  lemma {:induction false} NoneAfterMinute(
      p: Providers, run: seq<Call>, ran: seq<int>, key: string, limit: nat, lo: int, hi: int, a: int)
    requires |ran| == |run| && forall i | 0 <= i < |ran| :: ran[i] >= a + WINDOW
    ensures Pairs(p, run, ran, key, limit, lo, hi, a) == 0
    decreases |run|
  {
    if run != [] {
      assert ran[0] >= a + WINDOW;
      assert forall i | 0 <= i < |ran| - 1 :: ran[1..][i] == ran[i + 1];
      NoneAfterMinute(Apply(p, run[0], limit), run[1..], ran[1..], key, limit, lo, hi, a);
    }
  }

  function Copies(times: seq<int>, v: int): nat {
    CountIn(times, v, v + 1)
  }

  /**
   * After r restarts and c admissions of the time v within the minute from `a`, at the actual time `last`: the v are
   * in the queue, or were dropped by a restart, or one was purged a minute after v, when no lookup presents v any more.
   */
  ghost predicate Generations(s: RateState, c: nat, r: nat, v: int, limit: nat, lag: nat, a: int, last: int) {
    && |s.recent| <= limit
    && (r >= 1 ==> a - lag + WINDOW * (r - 1) <= s.windowStart <= last)
    && (c <= r * limit + Copies(s.recent, v) || (last >= v + WINDOW && c <= (r + 1) * limit))
  }

  lemma AtMostThree(s: RateState, c: nat, r: nat, v: int, limit: nat, lag: nat, a: int, last: int)
    requires Generations(s, c, r, v, limit, lag, a, last) && lag < WINDOW && last < a + WINDOW
    ensures c <= 3 * limit
  {
    CountInAll(s.recent, v, v + 1);
    assert r <= 2;
    assert (r + 1) * limit == r * limit + limit;
    if r == 2 {
    } else if r == 1 {
    } else {
    }
  }

  lemma GenerationsLater(s: RateState, c: nat, r: nat, v: int, limit: nat, lag: nat, a: int, last: int, now: int)
    requires Generations(s, c, r, v, limit, lag, a, last) && last <= now
    ensures Generations(s, c, r, v, limit, lag, a, now)
  {
  }

  /** Refreshing the window at the actual time `ran`, within the minute. */
  lemma GenerationsRefresh(s: RateState, c: nat, r: nat, v: int, limit: nat, lag: nat, a: int, ran: int, now: int)
    returns (r': nat)
    requires Generations(s, c, r, v, limit, lag, a, ran) && now <= ran <= now + lag && a <= ran
    ensures Generations(Refreshed(s, now), c, r', v, limit, lag, a, ran)
  {
    CountInAll(s.recent, v, v + 1);
    assert (r + 1) * limit == r * limit + limit;
    if now >= s.windowStart + WINDOW {
      r' := r + 1;
      assert (r' + 1) * limit == r' * limit + limit;
    } else {
      r' := r;
      var k := PurgeSplits(s.recent, now);
      assert s.recent[..k] + s.recent[k..] == s.recent;
      CountInAppend(s.recent[..k], s.recent[k..], v, v + 1);
      if Copies(s.recent[..k], v) > 0 {
        var i := CopyAt(s.recent[..k], v);
        assert now - s.recent[i] >= WINDOW;
      }
    }
  }

  lemma {:induction false} CopyAt(times: seq<int>, v: int) returns (i: nat)
    requires Copies(times, v) > 0
    ensures i < |times| && times[i] == v
  {
    i := 0;
    if times[0] != v {
      i := CopyAt(times[1..], v);
      i := i + 1;
    }
  }

  lemma GenerationsAdmission(s: RateState, c: nat, r: nat, v: int, limit: nat, lag: nat, a: int, ran: int, now: int)
    requires Generations(s, c, r, v, limit, lag, a, ran) && ran <= now + lag && lag < WINDOW && |s.recent| < limit
    ensures Generations(s.(recent := s.recent + [now]), c + if now == v then 1 else 0, r, v, limit, lag, a, ran)
  {
    CountInAppend(s.recent, [now], v, v + 1);
  }

  lemma GenerationsAfterCall(s: RateState, call: Call, c: nat, r: nat, v: int, limit: nat, lag: nat, a: int, ran: int)
    returns (r': nat)
    requires Generations(s, c, r, v, limit, lag, a, ran) && lag < WINDOW && a <= ran
    requires call.now <= ran && (call.Ask? ==> ran <= call.now + lag)
    ensures Generations(Updated(s, call, limit), c + if Admits(s, call, limit) && call.now == v then 1 else 0, r', v,
                        limit, lag, a, ran)
  {
    r' := r;
    if call.Ask? {
      r' := GenerationsRefresh(s, c, r, v, limit, lag, a, ran, call.now);
      if Admits(s, call, limit) {
        GenerationsAdmission(Refreshed(s, call.now), c, r', v, limit, lag, a, ran, call.now);
      }
    }
  }

  ghost predicate InGenerations(p: Providers, key: string, c: nat, r: nat, v: int, limit: nat, lag: nat, a: int, last: int) {
    if key in p then Generations(p[key], c, r, v, limit, lag, a, last) else c == 0 && r == 0
  }

  lemma GenerationsStep(p: Providers, call: Call, key: string, c: nat, r: nat, v: int, limit: nat, lag: nat, a: int, last: int, ran: int)
    returns (r': nat)
    requires InGenerations(p, key, c, r, v, limit, lag, a, last) && lag < WINDOW && last <= ran
    requires last < a ==> c == 0 && r == 0
    requires call.now <= ran && (call.Ask? ==> ran <= call.now + lag)
    ensures InGenerations(Apply(p, call, limit), key, c + Pair(p, call, ran, key, limit, v, v + 1, a), r', v, limit, lag, a, ran)
    ensures ran < a ==> r' == 0
  {
    r' := r;
    if call.key == key {
      var s := Existing(p, key, call.now);
      assert Generations(s, c, r, v, limit, lag, a, ran);
      if a <= ran {
        r' := GenerationsAfterCall(s, call, c, r, v, limit, lag, a, ran);
      } else {
        var k := PurgeSplits(s.recent, call.now);
      }
    }
  }

  /** A time v is admitted at most three times the limit within a minute, if lookups are less than a minute late. */
  lemma {:induction false} SameTimeAtMostThrice(
      p: Providers, run: seq<Call>, ran: seq<int>, key: string, limit: nat, c: nat, r: nat, v: int, lag: nat, a: int, last: int)
    requires LateBy(run, ran, lag) && InOrder(ran) && lag < WINDOW
    requires (forall i | 0 <= i < |ran| :: last <= ran[i]) && last < a + WINDOW
    requires InGenerations(p, key, c, r, v, limit, lag, a, last) && (last < a ==> c == 0 && r == 0)
    ensures c + Pairs(p, run, ran, key, limit, v, v + 1, a) <= 3 * limit
    decreases |run|
  {
    if key in p {
      AtMostThree(p[key], c, r, v, limit, lag, a, last);
    }
    if run != [] {
      OrderRest(ran);
      if ran[0] < a + WINDOW {
        var r' := GenerationsStep(p, run[0], key, c, r, v, limit, lag, a, last, ran[0]);
        LateRest(run, ran, lag);
        SameTimeAtMostThrice(Apply(p, run[0], limit), run[1..], ran[1..], key, limit,
                             c + Pair(p, run[0], ran[0], key, limit, v, v + 1, a), r', v, lag, a, ran[0]);
      } else {
        assert forall i | 0 < i < |ran| :: ran[i] == ran[1..][i - 1];
        NoneAfterMinute(p, run, ran, key, limit, v, v + 1, a);
      }
    }
  }

  lemma {:induction false} ManyTimes(run: seq<Call>, ran: seq<int>, key: string, limit: nat, lag: nat, a: int, lo: int, hi: int)
    requires LateBy(run, ran, lag) && InOrder(ran) && lag < WINDOW && lo <= hi
    ensures Pairs(map[], run, ran, key, limit, lo, hi, a) <= 3 * limit * (hi - lo)
    decreases hi - lo
  {
    if lo == hi {
      PairsSplit(map[], run, ran, key, limit, lo, lo, lo, a);
    } else {
      PairsSplit(map[], run, ran, key, limit, lo, lo + 1, hi, a);
      ManyTimes(run, ran, key, limit, lag, a, lo + 1, hi);
      var last := if run != [] && ran[0] < a then ran[0] else a - 1;
      SameTimeAtMostThrice(map[], run, ran, key, limit, 0, 0, lo, lag, a, last);
      assert 3 * limit * (hi - lo) == 3 * limit + 3 * limit * (hi - (lo + 1));
    }
  }

  /** In whatever order lookups come, if they are less than a minute late a minute sees a bounded number of them. */
  lemma UnderAMinuteLate(run: seq<Call>, ran: seq<int>, key: string, limit: nat, lag: nat, from: int)
    requires LateBy(run, ran, lag) && InOrder(ran) && lag < WINDOW
    ensures InMinute(RanTimes(map[], run, ran, key, limit), from) <= 3 * limit * (WINDOW + lag)
  {
    MinuteIsPairs(map[], run, ran, key, limit, lag, from);
    ManyTimes(run, ran, key, limit, lag, from, from - lag, from + WINDOW);
  }

  /** A bound on the lookups of a minute over every run, in any order, in which lookups are at most `lag` seconds late. */
  ghost predicate BoundedLate(limit: nat, lag: nat, bound: nat) {
    forall run, ran, key, from ::
      LateBy(run, ran, lag) && InOrder(ran) && Answering(map[], run, key, limit, multiset{}) ==>
        InMinute(RanTimes(map[], run, ran, key, limit), from) <= bound
  }

  lemma LateByMore(run: seq<Call>, ran: seq<int>, lag: nat, lag': nat)
    requires LateBy(run, ran, lag) && lag <= lag'
    ensures LateBy(run, ran, lag')
  {
  }

  /** For every limit there is such a bound exactly when lookups are less than a minute late. */
  lemma BoundedIffUnderAMinute(limit: nat, lag: nat)
    requires limit >= 1
    ensures (exists bound :: BoundedLate(limit, lag, bound)) <==> lag < WINDOW
  {
    if lag < WINDOW {
      forall run, ran, key, from | LateBy(run, ran, lag) && InOrder(ran)
        ensures InMinute(RanTimes(map[], run, ran, key, limit), from) <= 3 * limit * (WINDOW + lag)
      {
        UnderAMinuteLate(run, ran, key, limit, lag, from);
      }
      assert BoundedLate(limit, lag, 3 * limit * (WINDOW + lag));
    } else {
      forall bound: nat ensures !BoundedLate(limit, lag, bound) {
        var n := bound + 1;
        var run := LateRun("p", limit, n);
        var ran := LateRunTimes(n, |run|);
        UnorderedLateLookups("p", limit, n);
        LateByMore(run, ran, WINDOW, lag);
        assert limit * n >= n;
        assert InMinute(RanTimes(map[], run, ran, "p", limit), WINDOW * (n + 2) + 59) > bound;
      }
    }
  }
}
