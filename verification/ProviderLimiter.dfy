/**
 * The per-provider request limiter of the company lookup: a minute window that restarts on demand,
 * a queue of admitted timestamps inside it, and a cooldown. Times are whole seconds.
 */
module ProviderLimiter {
  const WINDOW: int := 60

  /** The cooldown a provider gets unless the settings say otherwise. */
  const COOLDOWN: int := 90

  datatype RateState = RateState(windowStart: int, recent: seq<int>, cooldownUntil: int)

  datatype Verdict = Admitted | CoolingDown(seconds: int) | LimitReached(limit: nat)

  type Providers = map<string, RateState>

  // Specification of the operations

  function Purged(recent: seq<int>, now: int): (r: seq<int>)
    ensures r == [] || now - r[0] < WINDOW
    ensures recent != [] && now - recent[0] < WINDOW ==> r == recent
  {
    if recent != [] && now - recent[0] >= WINDOW then Purged(recent[1..], now) else recent
  }

  function Existing(providers: Providers, key: string, now: int): RateState {
    if key in providers then providers[key] else RateState(now, [], 0)
  }

  /** The entry after the window restart and the purge, before admission is decided. */
  function Refreshed(s: RateState, now: int): RateState {
    var t := if now >= s.windowStart + WINDOW then s.(windowStart := now, recent := []) else s;
    t.(recent := Purged(t.recent, now))
  }

  function Decide(s: RateState, now: int, limit: nat): Verdict {
    if now < s.cooldownUntil then CoolingDown(s.cooldownUntil - now)
    else if |s.recent| >= limit then LimitReached(limit)
    else Admitted
  }

  function Recorded(s: RateState, now: int, v: Verdict): RateState {
    if v == Admitted then s.(recent := s.recent + [now]) else s
  }

  // The runtime that the source keeps behind a mutex

  class LookupRuntime {
    var providers: Providers

    constructor ()
      ensures providers == map[]
    {
      providers := map[];
    }

    method PurgeOldRequests(state: RateState, now: int) returns (purged: RateState)
      ensures purged == state.(recent := Purged(state.recent, now))
    {
      var recent := state.recent;
      while recent != [] && now - recent[0] >= WINDOW
        invariant Purged(recent, now) == Purged(state.recent, now)
      {
        recent := recent[1..];
      }
      purged := state.(recent := recent);
    }

    method ProviderCanRun(key: string, now: int, limit: nat) returns (v: Verdict)
      modifies this
      ensures v == Decide(Refreshed(Existing(old(providers), key, now), now), now, limit)
      ensures providers == old(providers)[key := Recorded(Refreshed(Existing(old(providers), key, now), now), now, v)]
    {
      var state := Existing(providers, key, now);
      if now >= state.windowStart + WINDOW {
        state := state.(windowStart := now, recent := []);
      }
      state := PurgeOldRequests(state, now);
      assert state == Refreshed(Existing(providers, key, now), now);
      if now < state.cooldownUntil {
        v := CoolingDown(state.cooldownUntil - now);
      } else if |state.recent| >= limit {
        v := LimitReached(limit);
      } else {
        state := state.(recent := state.recent + [now]);
        v := Admitted;
      }
      providers := providers[key := state];
    }

    method ProviderMarkCooldown(key: string, now: int, cooldown: int)
      modifies this
      ensures providers == old(providers)[key := Existing(old(providers), key, now).(cooldownUntil := now + cooldown)]
    {
      var state := Existing(providers, key, now);
      providers := providers[key := state.(cooldownUntil := now + cooldown)];
    }
  }

  // Runs

  datatype Call =
    | Ask(key: string, now: int)
    | Mark(key: string, now: int, cooldown: int)

  /** What a call leaves in its own provider's entry. */
  function Updated(s: RateState, call: Call, limit: nat): RateState {
    match call
    case Ask(_, now) => var r := Refreshed(s, now); Recorded(r, now, Decide(r, now, limit))
    case Mark(_, now, cooldown) => s.(cooldownUntil := now + cooldown)
  }

  predicate Admits(s: RateState, call: Call, limit: nat) {
    call.Ask? && Decide(Refreshed(s, call.now), call.now, limit) == Admitted
  }

  function Apply(p: Providers, call: Call, limit: nat): Providers {
    p[call.key := Updated(Existing(p, call.key, call.now), call, limit)]
  }

  function After(p: Providers, run: seq<Call>, limit: nat): Providers
    decreases |run|
  {
    if run == [] then p else After(Apply(p, run[0], limit), run[1..], limit)
  }

  /** The times at which a provider was admitted, in the order of the run. */
  function Admissions(p: Providers, run: seq<Call>, key: string, limit: nat): seq<int>
    decreases |run|
  {
    if run == [] then []
    else
      var call := run[0];
      (if call.key == key && Admits(Existing(p, key, call.now), call, limit) then [call.now] else [])
      + Admissions(Apply(p, call, limit), run[1..], key, limit)
  }

  ghost predicate Monotone(run: seq<Call>) {
    forall i, j | 0 <= i < j < |run| :: run[i].now <= run[j].now
  }

  /** No call for the provider presents a time more than `d` seconds before the start of the window it meets. */
  predicate Within(p: Providers, run: seq<Call>, key: string, limit: nat, d: nat)
    decreases |run|
  {
    run == []
    || ((run[0].Ask? && run[0].key == key && key in p ==> run[0].now >= p[key].windowStart - d)
        && Within(Apply(p, run[0], limit), run[1..], key, limit, d))
  }

  /** No call for the provider meets a cooldown. */
  predicate Uncooled(p: Providers, run: seq<Call>, key: string, limit: nat)
    decreases |run|
  {
    run == []
    || ((run[0].Ask? && run[0].key == key ==> run[0].now >= Existing(p, key, run[0].now).cooldownUntil)
        && Uncooled(Apply(p, run[0], limit), run[1..], key, limit))
  }

  /**
   * Every mark for the provider answers one admitted call of the same time, with the default cooldown; `open` are
   * the times of the admitted calls not answered so.
   */
  predicate Answering(p: Providers, run: seq<Call>, key: string, limit: nat, open: multiset<int>)
    decreases |run|
  {
    run == []
    || (Answers(run[0], key, open)
        && Answering(Apply(p, run[0], limit), run[1..], key, limit, Unanswered(p, run[0], key, limit, open)))
  }

  predicate Answers(call: Call, key: string, open: multiset<int>) {
    call.Mark? && call.key == key ==> call.now in open && call.cooldown == COOLDOWN
  }

  function Unanswered(p: Providers, call: Call, key: string, limit: nat, open: multiset<int>): multiset<int> {
    if call.key != key then open
    else if call.Mark? then open - multiset{call.now}
    else if Admits(Existing(p, key, call.now), call, limit) then open + multiset{call.now}
    else open
  }

  lemma {:induction false} MoreOpen(p: Providers, run: seq<Call>, key: string, limit: nat, open: multiset<int>, more: multiset<int>)
    requires Answering(p, run, key, limit, open) && open <= more
    ensures Answering(p, run, key, limit, more)
    decreases |run|
  {
    if run != [] {
      MoreOpen(Apply(p, run[0], limit), run[1..], key, limit, Unanswered(p, run[0], key, limit, open),
               Unanswered(p, run[0], key, limit, more));
    }
  }

  /** What is put in front of a run needs no answers. */
  ghost predicate KeepsAnswering(p: Providers, run: seq<Call>, q: Providers, rest: seq<Call>, key: string, limit: nat) {
    forall open :: Answering(q, rest, key, limit, open) ==> Answering(p, run, key, limit, open)
  }

  /** How many of the times lie in [from, to). */
  function CountIn(times: seq<int>, from: int, to: int): nat {
    if times == [] then 0
    else (if from <= times[0] < to then 1 else 0) + CountIn(times[1..], from, to)
  }

  function InMinute(times: seq<int>, from: int): nat {
    CountIn(times, from, from + WINDOW)
  }

  lemma {:induction false} CountInAppend(a: seq<int>, b: seq<int>, from: int, to: int)
    ensures CountIn(a + b, from, to) == CountIn(a, from, to) + CountIn(b, from, to)
  {
    if a == [] {
      assert a + b == b;
    } else {
      assert (a + b)[1..] == a[1..] + b;
      CountInAppend(a[1..], b, from, to);
    }
  }

  ghost predicate AllIn(times: seq<int>, from: int, to: int) {
    forall i | 0 <= i < |times| :: from <= times[i] < to
  }

  ghost predicate AllBefore(times: seq<int>, to: int) {
    forall i | 0 <= i < |times| :: times[i] < to
  }

  lemma {:induction false} CountInAll(times: seq<int>, from: int, to: int)
    ensures CountIn(times, from, to) <= |times|
    ensures AllIn(times, from, to) ==> CountIn(times, from, to) == |times|
    ensures AllBefore(times, from) ==> CountIn(times, from, to) == 0
  {
    if times != [] {
      CountInAll(times[1..], from, to);
    }
  }

  /** Cutting the interval where no time lies, or widening it, does not lose times. */
  lemma {:induction false} CountInWider(times: seq<int>, from: int, to: int, from': int, to': int)
    requires AllBefore(times, to) && from <= from'
    ensures CountIn(times, from', to') <= CountIn(times, from, to)
  {
    if times != [] {
      CountInWider(times[1..], from, to, from', to');
    }
  }

  // The bound

  /** The queue holds only times of the current window, and no more of them than the limit. */
  ghost predicate QueueInWindow(s: RateState, limit: nat) {
    |s.recent| <= limit && AllIn(s.recent, s.windowStart, s.windowStart + WINDOW)
  }

  /**
   * How an entry relates to the admissions dropped from its queue: they precede the window, at most
   * `limit` of them fall within the minute before it, and with the queue the minute from `a` is not too busy.
   */
  ghost predicate Account(s: RateState, past: seq<int>, limit: nat, a: int) {
    && QueueInWindow(s, limit)
    && AllBefore(past, s.windowStart)
    && CountIn(past, s.windowStart - WINDOW, s.windowStart) <= limit
    && InMinute(past + s.recent, a) <= 2 * limit
  }

  /** A call that is not before the start of its window never finds anything to purge. */
  lemma PurgeIsIdle(s: RateState, now: int, limit: nat)
    requires QueueInWindow(s, limit) && s.windowStart <= now
    ensures Refreshed(s, now) == if now < s.windowStart + WINDOW then s else s.(windowStart := now, recent := [])
    ensures QueueInWindow(Refreshed(s, now), limit)
  {
  }

  /** The admissions no longer in the queue after a refresh. */
  function Dropped(s: RateState, past: seq<int>, now: int): seq<int> {
    if now >= s.windowStart + WINDOW then past + s.recent else past
  }

  lemma AccountAfterRefresh(s: RateState, past: seq<int>, limit: nat, now: int, a: int)
    requires Account(s, past, limit, a) && s.windowStart <= now
    ensures Account(Refreshed(s, now), Dropped(s, past, now), limit, a)
    ensures Dropped(s, past, now) + Refreshed(s, now).recent == past + s.recent
  {
    PurgeIsIdle(s, now, limit);
    if now >= s.windowStart + WINDOW {
      CountInAppend(past, s.recent, now - WINDOW, now);
      CountInAll(past, now - WINDOW, now);
      CountInAll(s.recent, now - WINDOW, now);
      assert (past + s.recent) + [] == past + s.recent;
    }
  }

  lemma AccountAfterAdmission(s: RateState, past: seq<int>, limit: nat, now: int, a: int)
    requires Account(s, past, limit, a) && s.windowStart <= now < s.windowStart + WINDOW && |s.recent| < limit
    ensures Account(s.(recent := s.recent + [now]), past, limit, a)
  {
    var times, recent' := past + s.recent, s.recent + [now];
    if a <= now < a + WINDOW {
      CountInAppend(past, recent', a, a + WINDOW);
      CountInWider(past, s.windowStart - WINDOW, s.windowStart, a, a + WINDOW);
      CountInAll(recent', a, a + WINDOW);
    } else {
      assert past + recent' == times + [now];
      CountInAppend(times, [now], a, a + WINDOW);
    }
  }

  lemma AccountAfterCall(s: RateState, past: seq<int>, limit: nat, call: Call, a: int)
    returns (past': seq<int>)
    requires Account(s, past, limit, a) && (call.Ask? ==> s.windowStart <= call.now)
    ensures Account(Updated(s, call, limit), past', limit, a)
    ensures InMinute(past' + Updated(s, call, limit).recent, a)
            == InMinute(past + s.recent, a) + if Admits(s, call, limit) && a <= call.now < a + WINDOW then 1 else 0
  {
    match call
    case Mark(_, now, cooldown) =>
      past' := past;
    case Ask(_, now) =>
      AccountAfterRefresh(s, past, limit, now, a);
      past' := Dropped(s, past, now);
      PurgeIsIdle(s, now, limit);
      var r := Refreshed(s, now);
      if Admits(s, call, limit) {
        AccountAfterAdmission(r, past', limit, now, a);
        assert past' + (r.recent + [now]) == (past' + r.recent) + [now];
        CountInAppend(past' + r.recent, [now], a, a + WINDOW);
      }
  }

  ghost predicate Accounted(p: Providers, key: string, past: seq<int>, limit: nat, a: int) {
    if key in p then Account(p[key], past, limit, a) else past == []
  }

  function Queue(p: Providers, key: string): seq<int> {
    if key in p then p[key].recent else []
  }

  /** How many admissions of a run fall in the minute from `a`. */
  function Tally(p: Providers, run: seq<Call>, key: string, limit: nat, a: int): nat {
    InMinute(Admissions(p, run, key, limit), a)
  }

  lemma TallyHead(p: Providers, run: seq<Call>, key: string, limit: nat, a: int)
    requires run != []
    ensures var call := run[0];
            Tally(p, run, key, limit, a)
            == Gain(p, call, key, limit, a) + Tally(Apply(p, call, limit), run[1..], key, limit, a)
  {
    var call := run[0];
    var head := if call.key == key && Admits(Existing(p, key, call.now), call, limit) then [call.now] else [];
    CountInAppend(head, Admissions(Apply(p, call, limit), run[1..], key, limit), a, a + WINDOW);
  }

  function Gain(p: Providers, call: Call, key: string, limit: nat, a: int): nat {
    if call.key == key && Admits(Existing(p, key, call.now), call, limit) && a <= call.now < a + WINDOW then 1 else 0
  }

  lemma AccountedStep(p: Providers, call: Call, key: string, limit: nat, past: seq<int>, a: int)
    returns (past': seq<int>)
    requires Accounted(p, key, past, limit, a)
    requires call.Ask? && call.key == key && key in p ==> call.now >= p[key].windowStart
    ensures Accounted(Apply(p, call, limit), key, past', limit, a)
    ensures InMinute(past' + Queue(Apply(p, call, limit), key), a)
            == InMinute(past + Queue(p, key), a) + Gain(p, call, key, limit, a)
  {
    if call.key == key {
      var s := Existing(p, key, call.now);
      assert Account(s, past, limit, a);
      assert s.recent == Queue(p, key);
      past' := AccountAfterCall(s, past, limit, call, a);
    } else {
      past' := past;
    }
  }

  lemma {:induction false} RunIsAccounted(p: Providers, run: seq<Call>, key: string, limit: nat, past: seq<int>, a: int)
    requires Accounted(p, key, past, limit, a) && Within(p, run, key, limit, 0)
    ensures InMinute(past + Queue(p, key), a) + Tally(p, run, key, limit, a) <= 2 * limit
    decreases |run|
  {
    if run != [] {
      TallyHead(p, run, key, limit, a);
      var past' := AccountedStep(p, run[0], key, limit, past, a);
      RunIsAccounted(Apply(p, run[0], limit), run[1..], key, limit, past', a);
    }
  }

  /**
   * Over every run in which no call for the provider presents a time before the start of the window it meets,
   * in whatever order, no 60-second interval admits the provider more than twice the limit.
   */
  lemma AtMostTwiceWithoutStaleCalls(run: seq<Call>, key: string, limit: nat, from: int)
    requires Within(map[], run, key, limit, 0)
    ensures InMinute(Admissions(map[], run, key, limit), from) <= 2 * limit
  {
    RunIsAccounted(map[], run, key, limit, [], from);
  }

  lemma {:induction false} QueueStaysInWindow(
      p: Providers, run: seq<Call>, key: string, limit: nat, before: int, until: int)
    requires key in p ==> QueueInWindow(p[key], limit) && p[key].windowStart <= before
    requires Monotone(run) && before <= until && forall i | 0 <= i < |run| :: before <= run[i].now <= until
    ensures var q := After(p, run, limit);
            key in q ==> QueueInWindow(q[key], limit) && q[key].windowStart <= until
    ensures Within(p, run, key, limit, 0)
    decreases |run|
  {
    if run != [] {
      var call := run[0];
      assert forall i | 0 <= i < |run| - 1 :: run[1..][i] == run[i + 1];
      if call.key == key {
        PurgeIsIdle(Existing(p, key, call.now), call.now, limit);
      }
      QueueStaysInWindow(Apply(p, call, limit), run[1..], key, limit, call.now, until);
    }
  }

  /**
   * Over every run with a monotone clock and a fixed limit, no call is before the start of its window, each
   * provider's queue lies in [windowStart, windowStart + 60) and holds at most the limit, and no 60-second
   * interval admits the provider more than twice the limit.
   */
  lemma AtMostTwiceTheLimitPerMinute(run: seq<Call>, key: string, limit: nat, from: int)
    requires Monotone(run)
    ensures Within(map[], run, key, limit, 0)
    ensures key in After(map[], run, limit) ==> QueueInWindow(After(map[], run, limit)[key], limit)
    ensures InMinute(Admissions(map[], run, key, limit), from) <= 2 * limit
  {
    if run != [] {
      QueueStaysInWindow(map[], run, key, limit, run[0].now, run[|run| - 1].now);
    }
    AtMostTwiceWithoutStaleCalls(run, key, limit, from);
  }

  /** Over every monotone run, the purge inside an admission request removes nothing the restart left. */
  lemma PurgeNeverRemoves(run: seq<Call>, key: string, now: int, limit: nat)
    requires Monotone(run) && forall i | 0 <= i < |run| :: run[i].now <= now
    ensures var s := Existing(After(map[], run, limit), key, now);
            Purged(s.recent, now) == s.recent || now >= s.windowStart + WINDOW
  {
    if run != [] {
      QueueStaysInWindow(map[], run, key, limit, run[0].now, now);
    }
  }

  /** The calls of a run that concern one provider. */
  function Only(run: seq<Call>, key: string): seq<Call> {
    if run == [] then []
    else (if run[0].key == key then [run[0]] else []) + Only(run[1..], key)
  }

  ghost predicate SameEntry(p: Providers, q: Providers, key: string) {
    (key in p <==> key in q) && (key in p ==> p[key] == q[key])
  }

  /** Calls for one provider never influence another: its admissions are those of its own calls alone. */
  lemma {:induction false} ProvidersAreIndependent(p: Providers, q: Providers, run: seq<Call>, key: string, limit: nat)
    requires SameEntry(p, q, key)
    ensures Admissions(p, run, key, limit) == Admissions(q, Only(run, key), key, limit)
    ensures SameEntry(After(p, run, limit), After(q, Only(run, key), limit), key)
    decreases |run|
  {
    if run != [] {
      if run[0].key == key {
        assert Only(run, key) == [run[0]] + Only(run[1..], key);
        assert Only(run, key)[1..] == Only(run[1..], key);
        ProvidersAreIndependent(Apply(p, run[0], limit), Apply(q, run[0], limit), run[1..], key, limit);
      } else {
        assert Only(run, key) == Only(run[1..], key);
        ProvidersAreIndependent(Apply(p, run[0], limit), q, run[1..], key, limit);
      }
    }
  }

  // The bound is reached

  function Burst(key: string, now: int, n: nat): seq<Call> {
    if n == 0 then [] else [Ask(key, now)] + Burst(key, now, n - 1)
  }

  lemma SingleEntry(s: RateState, key: string, call: Call, limit: nat)
    requires call.key == key
    ensures Apply(map[key := s], call, limit) == map[key := Updated(s, call, limit)]
  {
  }

  /** A call in front of a run for one provider: what it adds to the tally and to the guards. */
  lemma CallInFront(s: RateState, call: Call, rest: seq<Call>, key: string, limit: nat, a: int, d: nat)
    requires call.key == key
    ensures var run, p, q := [call] + rest, map[key := s], map[key := Updated(s, call, limit)];
            && Tally(p, run, key, limit, a)
               == (if Admits(s, call, limit) && a <= call.now < a + WINDOW then 1 else 0) + Tally(q, rest, key, limit, a)
            && (Within(p, run, key, limit, d)
                <==> (call.Ask? ==> call.now >= s.windowStart - d) && Within(q, rest, key, limit, d))
            && (Uncooled(p, run, key, limit)
                <==> (call.Ask? ==> call.now >= s.cooldownUntil) && Uncooled(q, rest, key, limit))
            && (call.Ask? ==> KeepsAnswering(p, run, q, rest, key, limit))
  {
    var run := [call] + rest;
    assert run[1..] == rest;
    TallyHead(map[key := s], run, key, limit, a);
    SingleEntry(s, key, call, limit);
    if call.Ask? {
      AskKeepsAnswering(s, call.now, rest, key, limit);
    }
  }

  lemma AskKeepsAnswering(s: RateState, now: int, rest: seq<Call>, key: string, limit: nat)
    ensures KeepsAnswering(map[key := s], [Ask(key, now)] + rest, map[key := Updated(s, Ask(key, now), limit)], rest, key, limit)
  {
    var call, p := Ask(key, now), map[key := s];
    var run, q := [call] + rest, map[key := Updated(s, call, limit)];
    assert run[1..] == rest;
    SingleEntry(s, key, call, limit);
    forall open | Answering(q, rest, key, limit, open) ensures Answering(p, run, key, limit, open) {
      MoreOpen(q, rest, key, limit, open, Unanswered(p, call, key, limit, open));
    }
  }

  /** A mark that creates the entry opens an empty window. */
  lemma FirstMark(key: string, now: int, cooldown: int, rest: seq<Call>, limit: nat, a: int, d: nat)
    ensures var run, q := [Mark(key, now, cooldown)] + rest, map[key := RateState(now, [], now + cooldown)];
            && Tally(map[], run, key, limit, a) == Tally(q, rest, key, limit, a)
            && (Within(map[], run, key, limit, d) <==> Within(q, rest, key, limit, d))
            && (Uncooled(map[], run, key, limit) <==> Uncooled(q, rest, key, limit))
  {
    var run := [Mark(key, now, cooldown)] + rest;
    assert run[1..] == rest;
    TallyHead(map[], run, key, limit, a);
    assert Apply(map[], run[0], limit) == map[key := RateState(now, [], now + cooldown)];
  }

  /** An entry whose queue is n times the same instant. */
  predicate FullOf(s: RateState, now: int, n: nat) {
    |s.recent| == n && forall i | 0 <= i < n :: s.recent[i] == now
  }

  /** What a burst adds in front of a run when all of its calls are admitted. */
  ghost predicate BurstCounts(s: RateState, s': RateState, key: string, limit: nat, now: int, n: nat, rest: seq<Call>,
                              a: int, d: nat)
  {
    var run, p, q := Burst(key, now, n) + rest, map[key := s], map[key := s'];
    && Tally(p, run, key, limit, a) == (if a <= now < a + WINDOW then n else 0) + Tally(q, rest, key, limit, a)
    && (Within(p, run, key, limit, d) <==> Within(q, rest, key, limit, d))
    && (Uncooled(p, run, key, limit) <==> Uncooled(q, rest, key, limit))
    && KeepsAnswering(p, run, q, rest, key, limit)
  }

  lemma AdmittedOnTop(s: RateState, key: string, limit: nat, now: int, k: nat)
    requires now < s.windowStart + WINDOW && s.cooldownUntil <= now && FullOf(s, now, k) && k < limit
    ensures Admits(s, Ask(key, now), limit) && Updated(s, Ask(key, now), limit) == s.(recent := s.recent + [now])
    ensures FullOf(s.(recent := s.recent + [now]), now, k + 1)
  {
  }

  /** Within an open window and past the cooldown, every call of a burst that fits the limit is admitted. */
  lemma {:induction false} BurstIsAdmitted(
      s: RateState, key: string, limit: nat, now: int, k: nat, n: nat, rest: seq<Call>, a: int, d: nat)
    returns (s': RateState)
    requires s.windowStart - d <= now < s.windowStart + WINDOW && s.cooldownUntil <= now
    requires FullOf(s, now, k) && k + n <= limit
    ensures s' == s.(recent := s'.recent) && FullOf(s', now, k + n)
    ensures BurstCounts(s, s', key, limit, now, n, rest, a, d)
    decreases n
  {
    if n == 0 {
      s' := s;
      assert Burst(key, now, 0) + rest == rest;
    } else {
      var more := Burst(key, now, n - 1) + rest;
      assert Burst(key, now, n) + rest == [Ask(key, now)] + more;
      AdmittedOnTop(s, key, limit, now, k);
      CallInFront(s, Ask(key, now), more, key, limit, a, d);
      s' := BurstIsAdmitted(s.(recent := s.recent + [now]), key, limit, now, k + 1, n - 1, rest, a, d);
    }
  }

  /** An admitted call at 0, a cooldown of 90 seconds, a refused call at 60 that restarts the window, two bursts. */
  function WorstRun(key: string, limit: nat): seq<Call>
    requires limit >= 1
  {
    [Ask(key, 0), Mark(key, 0, 90), Ask(key, 60)] + (Burst(key, 119, limit) + ([Ask(key, 120)] + Burst(key, 120, limit - 1)))
  }

  lemma {:induction false} BurstTimes(key: string, now: int, n: nat)
    ensures |Burst(key, now, n)| == n
    ensures forall i | 0 <= i < n :: Burst(key, now, n)[i] == Ask(key, now)
  {
    if n > 0 {
      BurstTimes(key, now, n - 1);
    }
  }

  lemma WorstRunIsMonotone(key: string, limit: nat)
    requires limit >= 1
    ensures Monotone(WorstRun(key, limit))
  {
    BurstTimes(key, 119, limit);
    BurstTimes(key, 120, limit - 1);
    var w := WorstRun(key, limit);
    forall i | 0 <= i < |w|
      ensures w[i].now == if i < 2 then 0 else if i == 2 then 60 else if i < 3 + limit then 119 else 120
    {
    }
  }

  /** The first call for a provider, at 0, is admitted. */
  lemma FirstCall(key: string, rest: seq<Call>, limit: nat, a: int, d: nat)
    requires limit >= 1
    ensures var run, q := [Ask(key, 0)] + rest, map[key := RateState(0, [0], 0)];
            && Tally(map[], run, key, limit, a) == (if a <= 0 < a + WINDOW then 1 else 0) + Tally(q, rest, key, limit, a)
            && (Within(map[], run, key, limit, d) <==> Within(q, rest, key, limit, d))
            && (Answering(q, rest, key, limit, multiset{0}) ==> Answering(map[], run, key, limit, multiset{}))
  {
    var run := [Ask(key, 0)] + rest;
    assert run[1..] == rest;
    TallyHead(map[], run, key, limit, a);
    assert [] + [0] == [0];
    assert Refreshed(RateState(0, [], 0), 0) == RateState(0, [], 0);
    assert Updated(Existing(map[], key, 0), run[0], limit) == RateState(0, [0], 0);
    assert Apply(map[], run[0], limit) == map[key := RateState(0, [0], 0)];
    assert multiset{} + multiset{0} == multiset{0};
  }

  lemma OpeningLeavesEmptyWindow(key: string, rest: seq<Call>, limit: nat)
    requires limit >= 1
    ensures var run, q := [Ask(key, 0), Mark(key, 0, 90), Ask(key, 60)] + rest, map[key := RateState(60, [], 90)];
            && Tally(map[], run, key, limit, 119) == Tally(q, rest, key, limit, 119)
            && (Answering(q, rest, key, limit, multiset{}) ==> Answering(map[], run, key, limit, multiset{}))
  {
    var r1, r2 := [Mark(key, 0, 90)] + ([Ask(key, 60)] + rest), [Ask(key, 60)] + rest;
    assert [Ask(key, 0), Mark(key, 0, 90), Ask(key, 60)] + rest == [Ask(key, 0)] + r1;
    assert r1[1..] == r2;
    FirstCall(key, r1, limit, 119, 0);
    CallInFront(RateState(0, [0], 0), Mark(key, 0, 90), r2, key, limit, 119, 0);
    SingleEntry(RateState(0, [0], 0), key, Mark(key, 0, 90), limit);
    assert multiset{0} - multiset{0} == multiset{};
    CallInFront(RateState(0, [0], 90), Ask(key, 60), rest, key, limit, 119, 0);
    assert Updated(RateState(0, [0], 90), Ask(key, 60), limit) == RateState(60, [], 90);
  }

  /** For every limit some monotone run, whose mark answers a call, admits exactly twice the limit within one minute. */
  lemma TwiceTheLimitIsReached(key: string, limit: nat)
    requires limit >= 1
    ensures Monotone(WorstRun(key, limit)) && Answering(map[], WorstRun(key, limit), key, limit, multiset{})
    ensures InMinute(Admissions(map[], WorstRun(key, limit), key, limit), 119) == 2 * limit
  {
    WorstRunIsMonotone(key, limit);
    var last := [Ask(key, 120)] + Burst(key, 120, limit - 1);
    OpeningLeavesEmptyWindow(key, Burst(key, 119, limit) + last, limit);
    var s3 := BurstIsAdmitted(RateState(60, [], 90), key, limit, 119, 0, limit, last, 119, 0);
    CallInFront(s3, Ask(key, 120), Burst(key, 120, limit - 1), key, limit, 119, 0);
    assert Refreshed(s3, 120) == RateState(120, [], 90);
    assert [] + [120] == [120] && Burst(key, 120, limit - 1) + [] == Burst(key, 120, limit - 1);
    var _ := BurstIsAdmitted(RateState(120, [120], 90), key, limit, 120, 1, limit - 1, [], 119, 0);
  }

  // Cooldowns

  ghost predicate NoMark(run: seq<Call>, key: string) {
    forall i | 0 <= i < |run| :: run[i].Mark? ==> run[i].key != key
  }

  ghost predicate NoneBefore(times: seq<int>, until: int) {
    forall i | 0 <= i < |times| :: times[i] >= until
  }

  lemma {:induction false} CooldownLasts(p: Providers, run: seq<Call>, key: string, limit: nat, until: int)
    requires key in p && p[key].cooldownUntil == until && NoMark(run, key)
    ensures NoneBefore(Admissions(p, run, key, limit), until)
    decreases |run|
  {
    if run != [] {
      assert !(run[0].Mark? && run[0].key == key);
      assert forall i | 0 <= i < |run| - 1 :: run[1..][i] == run[i + 1];
      CooldownLasts(Apply(p, run[0], limit), run[1..], key, limit, until);
    }
  }

  /**
   * After a mark, and until the provider is marked again, nothing presented with a time before the end of the
   * cooldown is admitted, in any order of times and whatever other providers do.
   */
  lemma CooldownRefuses(p: Providers, key: string, mark: int, cooldown: int, run: seq<Call>, limit: nat)
    requires NoMark(run, key)
    ensures NoneBefore(Admissions(Apply(p, Mark(key, mark, cooldown), limit), run, key, limit), mark + cooldown)
  {
    CooldownLasts(Apply(p, Mark(key, mark, cooldown), limit), run, key, limit, mark + cooldown);
  }

  /** The proviso matters: a later mark replaces the end of the cooldown, even by an earlier one. */
  lemma LaterMarkShortens(p: Providers, key: string, mark: int, limit: nat)
    requires limit >= 1
    ensures var marked := Apply(Apply(p, Mark(key, mark, 90), limit), Mark(key, mark, 15), limit);
            forall now | now >= mark + WINDOW && now >= marked[key].windowStart + WINDOW :: Admits(marked[key], Ask(key, now), limit)
  {
  }
}
