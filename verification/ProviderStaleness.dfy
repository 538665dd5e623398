/**
 * How stale the times presented to the request limiter may be. A lookup reads the clock once and presents that
 * time to each provider it tries, after waiting for the ones before, so times may come out of order.
 */
module ProviderStaleness {
  import opened ProviderLimiter

  // One second is too much

  /**
   * Three bursts that one window start cannot tell apart: before it; one second stale, after a refused call
   * restarted the window; and after another refused call purged those. Answers to the bursts switch the cooldown
   * on, and late answers to the lookups before switch it off.
   */
  function OneSecondStale(key: string, limit: nat): seq<Call>
    requires limit >= 1
  {
    [Ask(key, 0)] + Earlier(key, 1, 4, Cooled(key, 240, 180, 0, TwoRounds(key, limit)))
  }

  function TwoRounds(key: string, limit: nat): seq<Call>
    requires limit >= 1
  {
    Round(key, limit, 299, 300, 60, Round(key, limit, 299, 359, 120, Burst(key, 310, limit)))
  }

  /** A burst, an answer to it that sets a cooldown, a refused call, and an old answer that ends the cooldown. */
  function Round(key: string, limit: nat, burst: int, now: int, past: int, rest: seq<Call>): seq<Call>
    requires limit >= 1
  {
    [Ask(key, burst)] + (Burst(key, burst, limit - 1) + Cooled(key, now, burst, past, rest))
  }

  /** Lookups a minute apart. */
  function Earlier(key: string, i: nat, n: nat, rest: seq<Call>): seq<Call>
    requires i <= n
    decreases n - i
  {
    if i == n then rest else [Ask(key, WINDOW * i)] + Earlier(key, i + 1, n, rest)
  }

  /** A call between two marks: the first refuses it, the second, for an older lookup, ends the cooldown. */
  function Cooled(key: string, now: int, mark: int, past: int, rest: seq<Call>): seq<Call> {
    [Mark(key, mark, COOLDOWN)] + ([Ask(key, now)] + ([Mark(key, past, COOLDOWN)] + rest))
  }

  /** What the pieces of a run leave to be counted in the rest. */
  ghost predicate Leaves(p: Providers, run: seq<Call>, q: Providers, rest: seq<Call>, key: string, limit: nat, a: int, d: nat) {
    && Tally(p, run, key, limit, a) == Tally(q, rest, key, limit, a)
    && (Within(p, run, key, limit, d) <==> Within(q, rest, key, limit, d))
  }

  lemma MarkAnswers(s: RateState, mark: int, rest: seq<Call>, key: string, limit: nat, open: multiset<int>)
    requires Answering(map[key := s.(cooldownUntil := mark + COOLDOWN)], rest, key, limit, open)
    ensures Answering(map[key := s], [Mark(key, mark, COOLDOWN)] + rest, key, limit, open + multiset{mark})
  {
    var call := Mark(key, mark, COOLDOWN);
    assert ([call] + rest)[1..] == rest;
    SingleEntry(s, key, call, limit);
    assert open + multiset{mark} - multiset{mark} == open;
  }

  lemma MarkInFront(s: RateState, mark: int, rest: seq<Call>, key: string, limit: nat, a: int, d: nat)
    ensures Leaves(map[key := s], [Mark(key, mark, COOLDOWN)] + rest, map[key := s.(cooldownUntil := mark + COOLDOWN)], rest,
                   key, limit, a, d)
  {
    CallInFront(s, Mark(key, mark, COOLDOWN), rest, key, limit, a, d);
  }

  lemma RefusedInFront(s: RateState, now: int, rest: seq<Call>, key: string, limit: nat, a: int, d: nat)
    requires s.windowStart - d <= now < s.cooldownUntil
    ensures var run, p, q := [Ask(key, now)] + rest, map[key := s], map[key := Refreshed(s, now)];
            Leaves(p, run, q, rest, key, limit, a, d)
  {
    CallInFront(s, Ask(key, now), rest, key, limit, a, d);
  }

  lemma RefreshIgnoresCooldown(s: RateState, now: int, until: int)
    ensures Refreshed(s.(cooldownUntil := until), now) == Refreshed(s, now).(cooldownUntil := until)
  {
  }

  /** A call refused by a cooldown that is set before it and ended after it: the window is refreshed, no more. */
  lemma CooledCall(s: RateState, key: string, limit: nat, now: int, mark: int, past: int, rest: seq<Call>, a: int, d: nat)
    requires s.windowStart - d <= now < mark + COOLDOWN
    ensures Leaves(map[key := s], Cooled(key, now, mark, past, rest),
                   map[key := Refreshed(s, now).(cooldownUntil := past + COOLDOWN)], rest, key, limit, a, d)
  {
    var last := [Mark(key, past, COOLDOWN)] + rest;
    var refreshed := Refreshed(s, now).(cooldownUntil := mark + COOLDOWN);
    MarkInFront(s, mark, [Ask(key, now)] + last, key, limit, a, d);
    RefreshIgnoresCooldown(s, now, mark + COOLDOWN);
    RefusedInFront(s.(cooldownUntil := mark + COOLDOWN), now, last, key, limit, a, d);
    MarkInFront(refreshed, past, rest, key, limit, a, d);
    assert refreshed.(cooldownUntil := past + COOLDOWN) == Refreshed(s, now).(cooldownUntil := past + COOLDOWN);
  }

  lemma CooledAnswers(s: RateState, key: string, limit: nat, now: int, mark: int, past: int, rest: seq<Call>,
                      open: multiset<int>)
    requires now < mark + COOLDOWN
    requires Answering(map[key := Refreshed(s, now).(cooldownUntil := past + COOLDOWN)], rest, key, limit, open)
    ensures Answering(map[key := s], Cooled(key, now, mark, past, rest), key, limit, open + multiset{past} + multiset{mark})
  {
    var last := [Mark(key, past, COOLDOWN)] + rest;
    var marked, refreshed := s.(cooldownUntil := mark + COOLDOWN), Refreshed(s, now).(cooldownUntil := mark + COOLDOWN);
    assert refreshed.(cooldownUntil := past + COOLDOWN) == Refreshed(s, now).(cooldownUntil := past + COOLDOWN);
    MarkAnswers(refreshed, past, rest, key, limit, open);
    RefreshIgnoresCooldown(s, now, mark + COOLDOWN);
    AskKeepsAnswering(marked, now, last, key, limit);
    assert Updated(marked, Ask(key, now), limit) == refreshed;
    MarkAnswers(s, mark, [Ask(key, now)] + last, key, limit, open + multiset{past});
  }

  function Times(i: nat, n: nat): multiset<int>
    requires i <= n
    decreases n - i
  {
    if i == n then multiset{} else multiset{WINDOW * i} + Times(i + 1, n)
  }

  /** Lookups before the minute of interest, at some times, in front of a run. */
  ghost predicate Opens(p: Providers, run: seq<Call>, q: Providers, rest: seq<Call>, key: string, limit: nat, a: int, d: nat,
                        times: multiset<int>)
  {
    && Tally(p, run, key, limit, a) == Tally(q, rest, key, limit, a)
    && (Within(p, run, key, limit, d) <==> Within(q, rest, key, limit, d))
    && forall open :: Answering(q, rest, key, limit, open + times) ==> Answering(p, run, key, limit, open)
  }

  lemma OpensTwice(p: Providers, run: seq<Call>, q: Providers, mid: seq<Call>, r: Providers, rest: seq<Call>,
                   key: string, limit: nat, a: int, d: nat, first: multiset<int>, second: multiset<int>)
    requires Opens(p, run, q, mid, key, limit, a, d, first) && Opens(q, mid, r, rest, key, limit, a, d, second)
    ensures Opens(p, run, r, rest, key, limit, a, d, first + second)
  {
    forall open | Answering(r, rest, key, limit, open + (first + second)) ensures Answering(p, run, key, limit, open) {
      assert open + first + second == open + (first + second);
    }
  }

  /** A lookup that restarts the window is admitted, and may be answered later. */
  lemma NextLookup(s: RateState, now: int, rest: seq<Call>, key: string, limit: nat, a: int, d: nat)
    requires limit >= 1 && s.windowStart + WINDOW <= now < a && s.cooldownUntil <= now
    ensures Opens(map[key := s], [Ask(key, now)] + rest, map[key := s.(windowStart := now, recent := [now])], rest,
                  key, limit, a, d, multiset{now})
  {
    var call := Ask(key, now);
    CallInFront(s, call, rest, key, limit, a, d);
    assert [] + [now] == [now];
    assert Updated(s, call, limit) == s.(windowStart := now, recent := [now]);
    SingleEntry(s, key, call, limit);
    assert ([call] + rest)[1..] == rest;
  }

  lemma {:induction false} EarlierAreAdmitted(key: string, i: nat, n: nat, rest: seq<Call>, limit: nat, a: int, d: nat)
    requires limit >= 1 && 1 <= i <= n && a > WINDOW * (n - 1)
    ensures Opens(map[key := OneLookup(i - 1)], Earlier(key, i, n, rest), map[key := OneLookup(n - 1)], rest,
                  key, limit, a, d, Times(i, n))
    decreases n - i
  {
    if i == n {
      assert forall open: multiset<int> {:trigger open + Times(i, n)} :: open + Times(i, n) == open;
    } else {
      var s, next, more := OneLookup(i - 1), OneLookup(i), Earlier(key, i + 1, n, rest);
      NextLookup(s, WINDOW * i, more, key, limit, a, d);
      assert s.(windowStart := WINDOW * i, recent := [WINDOW * i]) == next;
      EarlierAreAdmitted(key, i + 1, n, rest, limit, a, d);
      OpensTwice(map[key := s], Earlier(key, i, n, rest), map[key := next], more, map[key := OneLookup(n - 1)], rest,
                 key, limit, a, d, multiset{WINDOW * i}, Times(i + 1, n));
    }
  }

  function OneLookup(i: nat): RateState {
    RateState(WINDOW * i, [WINDOW * i], 0)
  }

  lemma {:induction false} AllPurged(recent: seq<int>, now: int)
    requires forall i | 0 <= i < |recent| :: now - recent[i] >= WINDOW
    ensures Purged(recent, now) == []
  {
    if recent != [] {
      AllPurged(recent[1..], now);
    }
  }

  /** What the rest of the run adds to a minute, and the answers it needs. */
  ghost predicate Adds(s: RateState, run: seq<Call>, key: string, limit: nat, a: int, n: nat, open: multiset<int>) {
    && Tally(map[key := s], run, key, limit, a) == n
    && Within(map[key := s], run, key, limit, 1)
    && Answering(map[key := s], run, key, limit, open)
  }

  lemma BurstAdds(s: RateState, now: int, k: nat, rest: seq<Call>, key: string, limit: nat, a: int) returns (s': RateState)
    requires FullOf(s, now, k) && k <= limit && s.cooldownUntil <= now && a <= now < a + WINDOW
    requires s.windowStart - 1 <= now < s.windowStart + WINDOW
    ensures s' == s.(recent := s'.recent) && FullOf(s', now, limit)
    ensures forall n, open :: Adds(s', rest, key, limit, a, n, open) ==>
                                Adds(s, Burst(key, now, limit - k) + rest, key, limit, a, limit - k + n, open)
  {
    s' := BurstIsAdmitted(s, key, limit, now, k, limit - k, rest, a, 1);
  }

  lemma CooledAdds(s: RateState, s': RateState, now: int, mark: int, past: int, rest: seq<Call>, key: string, limit: nat,
                   a: int, n: nat, open: multiset<int>)
    requires s.windowStart - 1 <= now < mark + COOLDOWN
    requires s' == Refreshed(s, now).(cooldownUntil := past + COOLDOWN) && Adds(s', rest, key, limit, a, n, open)
    ensures Adds(s, Cooled(key, now, mark, past, rest), key, limit, a, n, open + multiset{past} + multiset{mark})
  {
    CooledCall(s, key, limit, now, mark, past, rest, a, 1);
    CooledAnswers(s, key, limit, now, mark, past, rest, open);
  }

  lemma AnsweredLater(s: RateState, now: int, rest: seq<Call>, key: string, limit: nat, open: multiset<int>)
    requires Admits(s, Ask(key, now), limit)
    requires Answering(map[key := Updated(s, Ask(key, now), limit)], rest, key, limit, open + multiset{now})
    ensures Answering(map[key := s], [Ask(key, now)] + rest, key, limit, open)
  {
    SingleEntry(s, key, Ask(key, now), limit);
    assert ([Ask(key, now)] + rest)[1..] == rest;
  }

  /** An admitted lookup in the minute that is answered later. */
  lemma LookupAdds(s: RateState, now: int, rest: seq<Call>, key: string, limit: nat, a: int, n: nat, open: multiset<int>)
    requires Admits(s, Ask(key, now), limit) && a <= now < a + WINDOW && now >= s.windowStart - 1
    requires Adds(Updated(s, Ask(key, now), limit), rest, key, limit, a, n, open + multiset{now})
    ensures Adds(s, [Ask(key, now)] + rest, key, limit, a, n + 1, open)
  {
    CallInFront(s, Ask(key, now), rest, key, limit, a, 1);
    AnsweredLater(s, now, rest, key, limit, open);
  }

  /** The window after a refused call at `now` that drops a burst at `burst`. */
  function Emptied(start: int, now: int, past: int): RateState {
    RateState(if now >= start + WINDOW then now else start, [], past + COOLDOWN)
  }

  lemma PurgeAdds(s: RateState, burst: int, now: int, past: int, rest: seq<Call>, key: string, limit: nat, a: int, n: nat,
                  open: multiset<int>)
    requires FullOf(s, burst, limit) && s.windowStart - 1 <= now < burst + COOLDOWN
    requires now >= s.windowStart + WINDOW || now >= burst + WINDOW
    requires Adds(Emptied(s.windowStart, now, past), rest, key, limit, a, n, open)
    ensures Adds(s, Cooled(key, now, burst, past, rest), key, limit, a, n, open + multiset{past} + multiset{burst})
  {
    if now < s.windowStart + WINDOW {
      AllPurged(s.recent, now);
    }
    CooledAdds(s, Emptied(s.windowStart, now, past), now, burst, past, rest, key, limit, a, n, open);
  }

  lemma FillAdds(start: int, until: int, burst: int, rest: seq<Call>, key: string, limit: nat, a: int) returns (full: RateState)
    requires limit >= 1 && until <= burst && start - 1 <= burst < start + WINDOW && a <= burst < a + WINDOW
    ensures full == RateState(start, full.recent, until) && FullOf(full, burst, limit)
    ensures forall n, open :: Adds(full, rest, key, limit, a, n, open + multiset{burst}) ==>
                                Adds(RateState(start, [], until), [Ask(key, burst)] + (Burst(key, burst, limit - 1) + rest),
                                     key, limit, a, limit + n, open)
  {
    var s, s1, burstAndRest := RateState(start, [], until), RateState(start, [burst], until), Burst(key, burst, limit - 1) + rest;
    AdmittedOnTop(s, key, limit, burst, 0);
    assert [] + [burst] == [burst];
    full := BurstAdds(s1, burst, 1, rest, key, limit, a);
    forall n, open | Adds(full, rest, key, limit, a, n, open + multiset{burst})
      ensures Adds(s, [Ask(key, burst)] + burstAndRest, key, limit, a, limit + n, open)
    {
      LookupAdds(s, burst, burstAndRest, key, limit, a, limit - 1 + n, open);
    }
  }

  /** A round admits the whole limit and leaves an empty window as it found one. */
  lemma RoundAdds(start: int, until: int, burst: int, now: int, past: int, rest: seq<Call>, key: string, limit: nat, a: int,
                  n: nat, open: multiset<int>)
    requires limit >= 1 && until <= burst && start - 1 <= burst < start + WINDOW && a <= burst < a + WINDOW
    requires start - 1 <= now < burst + COOLDOWN && (now >= start + WINDOW || now >= burst + WINDOW)
    requires Adds(Emptied(start, now, past), rest, key, limit, a, n, open)
    ensures Adds(RateState(start, [], until), Round(key, limit, burst, now, past, rest), key, limit, a, limit + n,
                 open + multiset{past})
  {
    var full := FillAdds(start, until, burst, Cooled(key, now, burst, past, rest), key, limit, a);
    PurgeAdds(full, burst, now, past, rest, key, limit, a, n, open);
  }

  lemma TwoRoundsAdd(key: string, limit: nat)
    requires limit >= 1
    ensures Adds(RateState(240, [], 90), TwoRounds(key, limit), key, limit, 299, 3 * limit, multiset{120} + multiset{60})
  {
    var burst := Burst(key, 310, limit);
    assert burst + [] == burst;
    var s := BurstAdds(RateState(300, [], 210), 310, 0, [], key, limit, 299);
    assert Adds(s, [], key, limit, 299, 0, multiset{});
    RoundAdds(300, 150, 299, 359, 120, burst, key, limit, 299, limit, multiset{});
    assert multiset{} + multiset{120} == multiset{120};
    RoundAdds(240, 90, 299, 300, 60, Round(key, limit, 299, 359, 120, burst), key, limit, 299, 2 * limit, multiset{120});
  }

  lemma FourTimes()
    ensures multiset{120} + multiset{60} + multiset{0} + multiset{180} == multiset{0} + Times(1, 4)
  {
    assert Times(3, 4) == multiset{180} + Times(4, 4);
    assert Times(2, 4) == multiset{120} + Times(3, 4);
  }

  /** One second of staleness admits three times the limit in a minute, with every mark an answer to a lookup. */
  lemma OneSecondSuffices(key: string, limit: nat)
    requires limit >= 1
    ensures var run := OneSecondStale(key, limit);
            && Within(map[], run, key, limit, 1) && Answering(map[], run, key, limit, multiset{})
            && Tally(map[], run, key, limit, 299) == 3 * limit
  {
    var rounds := TwoRounds(key, limit);
    var cooled := Cooled(key, 240, 180, 0, rounds);
    TwoRoundsAdd(key, limit);
    CooledAdds(OneLookup(3), RateState(240, [], 90), 240, 180, 0, rounds, key, limit, 299, 3 * limit, multiset{120} + multiset{60});
    FourTimes();
    EarlierAreAdmitted(key, 1, 4, cooled, limit, 299, 1);
    FirstCall(key, Earlier(key, 1, 4, cooled), limit, 299, 1);
  }

  /** The bound over every run, with marks that answer lookups, whose calls are at most `d` seconds before their window. */
  ghost predicate BoundedWithin(limit: nat, d: nat) {
    forall run, key, from :: Within(map[], run, key, limit, d) && Answering(map[], run, key, limit, multiset{}) ==>
                               Tally(map[], run, key, limit, from) <= 2 * limit
  }

  lemma {:induction false} WithinMore(p: Providers, run: seq<Call>, key: string, limit: nat, d: nat, d': nat)
    requires Within(p, run, key, limit, d) && d <= d'
    ensures Within(p, run, key, limit, d')
    decreases |run|
  {
    if run != [] {
      WithinMore(Apply(p, run[0], limit), run[1..], key, limit, d, d');
    }
  }

  /** For every limit, twice the limit bounds all such runs exactly when no staleness is allowed. */
  lemma BoundedIffFresh(limit: nat, d: nat)
    requires limit >= 1
    ensures BoundedWithin(limit, d) <==> d == 0
  {
    if d == 0 {
      forall run, key, from | Within(map[], run, key, limit, 0) ensures Tally(map[], run, key, limit, from) <= 2 * limit {
        AtMostTwiceWithoutStaleCalls(run, key, limit, from);
      }
    } else {
      OneSecondSuffices("p", limit);
      WithinMore(map[], OneSecondStale("p", limit), "p", limit, 1, d);
      assert Tally(map[], OneSecondStale("p", limit), "p", limit, 299) > 2 * limit;
    }
  }

  // Without cooldowns one second is tolerated

  ghost predicate FreshFront(s: RateState) {
    s.recent != [] && s.recent[0] >= s.windowStart
  }

  /**
   * The account of an entry that may hold times one second before its window. Such times can only be purged
   * from the first window of all, since a restart puts its own admission in front of them.
   */
  ghost predicate LooseAccount(s: RateState, past: seq<int>, limit: nat, a: int) {
    && |s.recent| <= limit && AllIn(s.recent, s.windowStart - 1, s.windowStart + WINDOW)
    && AllBefore(past, s.windowStart)
    && CountIn(past, s.windowStart - WINDOW, s.windowStart) <= limit
    && InMinute(past + s.recent, a) <= 2 * limit
    && (past == [] || FreshFront(s))
  }

  lemma {:induction false} PurgeSplits(recent: seq<int>, now: int) returns (k: nat)
    ensures k <= |recent| && Purged(recent, now) == recent[k..]
    ensures forall i | 0 <= i < k :: now - recent[i] >= WINDOW
    ensures k < |recent| ==> now - recent[k] < WINDOW
  {
    k := 0;
    if recent != [] && now - recent[0] >= WINDOW {
      k := PurgeSplits(recent[1..], now);
      assert forall i | 0 <= i < k :: recent[1..][i] == recent[i + 1];
      assert recent[1..][k..] == recent[k + 1..];
      k := k + 1;
    }
  }

  function GainAt(now: int, a: int): nat {
    if a <= now < a + WINDOW then 1 else 0
  }

  lemma OneMoreTime(times: seq<int>, now: int, a: int)
    ensures InMinute(times + [now], a) == InMinute(times, a) + GainAt(now, a)
  {
    CountInAppend(times, [now], a, a + WINDOW);
  }

  /** A call that restarts the window is admitted, and stands in front of what follows. */
  lemma LooseRestart(s: RateState, past: seq<int>, limit: nat, now: int, a: int)
    requires LooseAccount(s, past, limit, a) && limit >= 1 && now >= s.windowStart + WINDOW
    ensures LooseAccount(s.(windowStart := now, recent := [now]), past + s.recent, limit, a)
    ensures InMinute(past + s.recent + [now], a) == InMinute(past + s.recent, a) + GainAt(now, a)
  {
    var all := past + s.recent;
    CountInAppend(past, s.recent, now - WINDOW, now);
    CountInAll(past, now - WINDOW, now);
    CountInAll(s.recent, now - WINDOW, now);
    OneMoreTime(all, now, a);
    if a <= now < a + WINDOW {
      CountInWider(all, now - WINDOW, now, a, a + WINDOW);
    }
  }

  /** A call in an open window that finds nothing to purge. */
  lemma LooseAdmission(s: RateState, past: seq<int>, limit: nat, now: int, a: int)
    requires LooseAccount(s, past, limit, a) && s.windowStart - 1 <= now < s.windowStart + WINDOW && |s.recent| < limit
    ensures LooseAccount(s.(recent := s.recent + [now]), past, limit, a)
    ensures InMinute(past + (s.recent + [now]), a) == InMinute(past + s.recent, a) + GainAt(now, a)
  {
    var recent' := s.recent + [now];
    assert past + recent' == past + s.recent + [now];
    OneMoreTime(past + s.recent, now, a);
    if a <= now < a + WINDOW {
      CountInAppend(past, recent', a, a + WINDOW);
      CountInAll(recent', a, a + WINDOW);
      CountInWider(past, s.windowStart - WINDOW, s.windowStart, a, a + WINDOW);
    }
  }

  /** A call that purges the first k times is the last of its window's minute. */
  lemma PurgeShape(s: RateState, limit: nat, now: int, k: nat)
    requires |s.recent| <= limit && AllIn(s.recent, s.windowStart - 1, s.windowStart + WINDOW)
    requires now < s.windowStart + WINDOW
    requires 0 < k <= |s.recent| && forall i | 0 <= i < k :: now - s.recent[i] >= WINDOW
    requires k < |s.recent| ==> now - s.recent[k] < WINDOW
    ensures now == s.windowStart + WINDOW - 1
    ensures var past, recent' := s.recent[..k], s.recent[k..] + [now];
            && |past| <= limit && |recent'| <= limit && past + recent' == s.recent + [now]
            && AllBefore(past, s.windowStart) && AllIn(recent', s.windowStart - 1, s.windowStart + WINDOW)
            && recent'[0] >= s.windowStart
  {
    assert s.recent[0] >= s.windowStart - 1 && now - s.recent[0] >= WINDOW;
    assert s.recent[..k] + (s.recent[k..] + [now]) == s.recent + [now];
    var rest := s.recent[k..];
    assert forall i | 0 <= i < |rest| :: rest[i] == s.recent[k + i];
  }

  /** It is admitted, and the purged times are too few to fill the bound. */
  lemma LoosePurge(s: RateState, limit: nat, now: int, k: nat, a: int)
    requires LooseAccount(s, [], limit, a) && now < s.windowStart + WINDOW
    requires 0 < k <= |s.recent| && forall i | 0 <= i < k :: now - s.recent[i] >= WINDOW
    requires k < |s.recent| ==> now - s.recent[k] < WINDOW
    ensures LooseAccount(s.(recent := s.recent[k..] + [now]), s.recent[..k], limit, a)
    ensures InMinute(s.recent[..k] + (s.recent[k..] + [now]), a) == InMinute([] + s.recent, a) + GainAt(now, a)
  {
    var past, recent' := s.recent[..k], s.recent[k..] + [now];
    PurgeShape(s, limit, now, k);
    assert [] + s.recent == s.recent;
    OneMoreTime(s.recent, now, a);
    SmallParts(past, recent', limit, a);
    CountInAll(past, s.windowStart - WINDOW, s.windowStart);
  }

  lemma SmallParts(past: seq<int>, recent: seq<int>, limit: nat, a: int)
    requires |past| <= limit && |recent| <= limit
    ensures InMinute(past + recent, a) <= 2 * limit
  {
    CountInAppend(past, recent, a, a + WINDOW);
    CountInAll(past, a, a + WINDOW);
    CountInAll(recent, a, a + WINDOW);
  }

  lemma LooseAfterCall(s: RateState, past: seq<int>, limit: nat, call: Call, a: int) returns (past': seq<int>)
    requires LooseAccount(s, past, limit, a) && limit >= 1
    requires call.Ask? ==> call.now >= s.windowStart - 1 && call.now >= s.cooldownUntil
    ensures LooseAccount(Updated(s, call, limit), past', limit, a)
    ensures InMinute(past' + Updated(s, call, limit).recent, a)
            == InMinute(past + s.recent, a) + if Admits(s, call, limit) then GainAt(call.now, a) else 0
  {
    past' := past;
    if call.Ask? {
      var now := call.now;
      if now >= s.windowStart + WINDOW {
        past' := past + s.recent;
        LooseRestart(s, past, limit, now, a);
        assert [] + [now] == [now];
      } else {
        var k := PurgeSplits(s.recent, now);
        if k > 0 {
          assert past == [];
          past' := s.recent[..k];
          LoosePurge(s, limit, now, k, a);
        } else {
          assert s.recent[0..] == s.recent;
          if |s.recent| < limit {
            LooseAdmission(s, past, limit, now, a);
          }
        }
      }
    }
  }

  ghost predicate LooselyAccounted(p: Providers, key: string, past: seq<int>, limit: nat, a: int) {
    if key in p then LooseAccount(p[key], past, limit, a) else past == []
  }

  lemma LooseStep(p: Providers, call: Call, key: string, limit: nat, past: seq<int>, a: int) returns (past': seq<int>)
    requires LooselyAccounted(p, key, past, limit, a) && limit >= 1
    requires call.Ask? && call.key == key ==>
               && (key in p ==> call.now >= p[key].windowStart - 1)
               && call.now >= Existing(p, key, call.now).cooldownUntil
    ensures LooselyAccounted(Apply(p, call, limit), key, past', limit, a)
    ensures InMinute(past' + Queue(Apply(p, call, limit), key), a)
            == InMinute(past + Queue(p, key), a) + Gain(p, call, key, limit, a)
  {
    if call.key == key {
      var s := Existing(p, key, call.now);
      assert s.recent == Queue(p, key);
      past' := LooseAfterCall(s, past, limit, call, a);
    } else {
      past' := past;
    }
  }

  lemma {:induction false} LooseRunIsBounded(p: Providers, run: seq<Call>, key: string, limit: nat, past: seq<int>, a: int)
    requires LooselyAccounted(p, key, past, limit, a) && limit >= 1
    requires Within(p, run, key, limit, 1) && Uncooled(p, run, key, limit)
    ensures InMinute(past + Queue(p, key), a) + Tally(p, run, key, limit, a) <= 2 * limit
    decreases |run|
  {
    if run != [] {
      TallyHead(p, run, key, limit, a);
      var past' := LooseStep(p, run[0], key, limit, past, a);
      LooseRunIsBounded(Apply(p, run[0], limit), run[1..], key, limit, past', a);
    }
  }

  /** A full window, a full next window, and after another restart a call two seconds before it. */
  function TwoSecondsStale(key: string, limit: nat): seq<Call>
    requires limit >= 1
  {
    [Mark(key, 0, 15)] + (Burst(key, 59, limit) + SecondWindow(key, limit))
  }

  lemma TwoSecondsSuffice(key: string, limit: nat)
    requires limit >= 2
    ensures var run := TwoSecondsStale(key, limit);
            && Within(map[], run, key, limit, 2) && Uncooled(map[], run, key, limit)
            && Tally(map[], run, key, limit, 59) == 2 * limit + 1
  {
    var s := BurstIsAdmitted(RateState(0, [], 15), key, limit, 59, 0, limit, SecondWindow(key, limit), 59, 2);
    FirstMark(key, 0, 15, Burst(key, 59, limit) + SecondWindow(key, limit), limit, 59, 2);
    SecondWindowCounts(s, key, limit);
  }

  function SecondWindow(key: string, limit: nat): seq<Call>
    requires limit >= 1
  {
    [Ask(key, 60)] + (Burst(key, 60, limit - 1) + ([Ask(key, 120)] + ([Ask(key, 118)] + [])))
  }

  lemma SecondWindowCounts(s: RateState, key: string, limit: nat)
    requires limit >= 2 && s.windowStart == 0 && s.cooldownUntil == 15
    ensures var run, p := SecondWindow(key, limit), map[key := s];
            Within(p, run, key, limit, 2) && Uncooled(p, run, key, limit) && Tally(p, run, key, limit, 59) == limit + 1
  {
    var last := [Ask(key, 120)] + ([Ask(key, 118)] + []);
    CallInFront(s, Ask(key, 60), Burst(key, 60, limit - 1) + last, key, limit, 59, 2);
    assert [] + [60] == [60];
    assert Updated(s, Ask(key, 60), limit) == RateState(60, [60], 15);
    var s' := BurstIsAdmitted(RateState(60, [60], 15), key, limit, 60, 1, limit - 1, last, 59, 2);
    StaleAfterRestart(s', key, limit);
  }

  lemma StaleAfterRestart(s: RateState, key: string, limit: nat)
    requires limit >= 2 && s.windowStart == 60 && s.cooldownUntil == 15
    ensures var run, p := [Ask(key, 120)] + ([Ask(key, 118)] + []), map[key := s];
            Within(p, run, key, limit, 2) && Uncooled(p, run, key, limit) && Tally(p, run, key, limit, 59) == 1
  {
    CallInFront(s, Ask(key, 120), [Ask(key, 118)] + [], key, limit, 59, 2);
    assert [] + [120] == [120];
    assert Updated(s, Ask(key, 120), limit) == RateState(120, [120], 15);
    CallInFront(RateState(120, [120], 15), Ask(key, 118), [], key, limit, 59, 2);
  }

  /** The same bound over such runs in which no call meets a cooldown. */
  ghost predicate BoundedWithinUncooled(limit: nat, d: nat) {
    forall run, key, from :: Within(map[], run, key, limit, d) && Uncooled(map[], run, key, limit) ==>
                               Tally(map[], run, key, limit, from) <= 2 * limit
  }

  /** Without cooldowns, for every limit from 2, it holds exactly up to one second of staleness. */
  lemma BoundedUncooledIffOneSecond(limit: nat, d: nat)
    requires limit >= 2
    ensures BoundedWithinUncooled(limit, d) <==> d <= 1
  {
    if d <= 1 {
      forall run, key, from | Within(map[], run, key, limit, d) && Uncooled(map[], run, key, limit)
        ensures Tally(map[], run, key, limit, from) <= 2 * limit
      {
        WithinMore(map[], run, key, limit, d, 1);
        LooseRunIsBounded(map[], run, key, limit, [], from);
      }
    } else {
      TwoSecondsSuffice("p", limit);
      WithinMore(map[], TwoSecondsStale("p", limit), "p", limit, 2, d);
    }
  }
}
