/**
 * The bounded event log of the webhook service. A receiver takes an id under one lock and pushes its
 * record under another, so receivers interleave between the two; readers may clear the log at any time.
 */
module WebhookLog {
  const CAPACITY: nat := 500

  datatype EventRecord = EventRecord(id: nat, provider: string, event: string, payload: string)

  // The events vector

  /** What remains after the oldest records over the capacity are drained. */
  function Drained<T>(events: seq<T>): seq<T> {
    if |events| > CAPACITY then events[|events| - CAPACITY..] else events
  }

  function Reversed<T>(s: seq<T>): (r: seq<T>)
    ensures |r| == |s|
    ensures forall i | 0 <= i < |s| :: r[i] == s[|s| - 1 - i]
  {
    seq(|s|, i requires 0 <= i < |s| => s[|s| - 1 - i])
  }

  // Interleavings

  /** One locked region executed by some receiver or reader. */
  datatype Step =
    | TakeId(receiver: nat)
    | Push(receiver: nat, provider: string, event: string, payload: string)
    | Clear

  /** The two locked values, and the ids that receivers took but have not pushed yet. */
  datatype State = State(sequence: nat, taken: map<nat, nat>, events: seq<EventRecord>)

  const INITIAL := State(0, map[], [])

  predicate Enabled(s: State, step: Step) {
    match step
    case TakeId(r) => r !in s.taken
    case Push(r, _, _, _) => r in s.taken
    case Clear => true
  }

  function Apply(s: State, step: Step): State
    requires Enabled(s, step)
  {
    match step
    case TakeId(r) => s.(sequence := s.sequence + 1, taken := s.taken[r := s.sequence + 1])
    case Push(r, p, e, b) =>
      s.(taken := s.taken - {r}, events := Drained(s.events + [EventRecord(s.taken[r], p, e, b)]))
    case Clear => s.(events := [])
  }

  predicate Legal(run: seq<Step>)
    decreases |run|, 0
  {
    run == [] || (Legal(run[..|run| - 1]) && Enabled(After(run[..|run| - 1]), run[|run| - 1]))
  }

  function After(run: seq<Step>): State
    requires Legal(run)
    decreases |run|, 1
  {
    if run == [] then INITIAL else Apply(After(run[..|run| - 1]), run[|run| - 1])
  }

  // What the log should hold, read off the run alone

  /** How many ids have been handed out. */
  function Takes(run: seq<Step>): nat {
    if run == [] then 0
    else Takes(run[..|run| - 1]) + if run[|run| - 1].TakeId? then 1 else 0
  }

  /** The number of ids handed out up to and including the receiver's latest TakeId. */
  function LatestTake(run: seq<Step>, receiver: nat): nat {
    if run == [] then 0
    else if run[|run| - 1] == TakeId(receiver) then Takes(run)
    else LatestTake(run[..|run| - 1], receiver)
  }

  /** Every record ever pushed, oldest first. */
  function Pushed(run: seq<Step>): seq<EventRecord> {
    if run == [] then []
    else
      var earlier := run[..|run| - 1];
      match run[|run| - 1]
      case Push(r, p, e, b) => Pushed(earlier) + [EventRecord(LatestTake(earlier, r), p, e, b)]
      case _ => Pushed(earlier)
  }

  /** The records pushed since the latest Clear. */
  function PushedSinceClear(run: seq<Step>): seq<EventRecord> {
    if run == [] then []
    else
      var earlier := run[..|run| - 1];
      match run[|run| - 1]
      case Push(r, p, e, b) => PushedSinceClear(earlier) + [EventRecord(LatestTake(earlier, r), p, e, b)]
      case Clear => []
      case TakeId(_) => PushedSinceClear(earlier)
  }

  function Last<T>(s: seq<T>, n: nat): seq<T> {
    if |s| <= n then s else s[|s| - n..]
  }

  /** Draining after each push keeps exactly the newest CAPACITY of all pushes. */
  lemma DrainKeepsLast<T>(all: seq<T>, record: T)
    ensures Drained(Last(all, CAPACITY) + [record]) == Last(all + [record], CAPACITY)
  {
    var kept := Last(all, CAPACITY);
    if |all| >= CAPACITY {
      assert kept == all[|all| - CAPACITY..];
      assert kept + [record] == (all + [record])[|all| - CAPACITY..];
    }
  }

  ghost predicate DistinctIds(records: seq<EventRecord>) {
    forall i, j | 0 <= i < j < |records| :: records[i].id != records[j].id
  }

  lemma {:induction false} TakenIdsAreLatest(run: seq<Step>)
    requires Legal(run)
    ensures After(run).sequence == Takes(run)
    ensures forall r | r in After(run).taken :: After(run).taken[r] == LatestTake(run, r)
  {
    if run != [] {
      var earlier, step := run[..|run| - 1], run[|run| - 1];
      TakenIdsAreLatest(earlier);
      forall q | q in After(run).taken ensures After(run).taken[q] == LatestTake(run, q) {
        assert step == TakeId(q) || q in After(earlier).taken;
      }
    }
  }

  /** Ids of pushed records and of in-flight receivers are all different, and none is above the sequence. */
  ghost predicate FreshIds(s: State, pushed: seq<EventRecord>) {
    && (forall r | r in s.taken :: 1 <= s.taken[r] <= s.sequence)
    && (forall r, q | r in s.taken && q in s.taken && r != q :: s.taken[r] != s.taken[q])
    && (forall i | 0 <= i < |pushed| :: 1 <= pushed[i].id <= s.sequence)
    && (forall i, r | 0 <= i < |pushed| && r in s.taken :: pushed[i].id != s.taken[r])
    && DistinctIds(pushed)
  }

  lemma FreshIdsAfterTake(s: State, pushed: seq<EventRecord>, r: nat)
    requires FreshIds(s, pushed) && r !in s.taken
    ensures FreshIds(Apply(s, TakeId(r)), pushed)
  {
  }

  lemma FreshIdsAfterPush(s: State, pushed: seq<EventRecord>, step: Step, record: EventRecord)
    requires FreshIds(s, pushed) && step.Push? && Enabled(s, step)
    requires record.id == s.taken[step.receiver]
    ensures FreshIds(Apply(s, step), pushed + [record])
  {
    var t, all := Apply(s, step).taken, pushed + [record];
    assert forall q | q in t :: q in s.taken && t[q] == s.taken[q] && q != step.receiver;
    forall i | 0 <= i < |all|
      ensures 1 <= all[i].id <= s.sequence
      ensures forall q | q in t :: all[i].id != t[q]
      ensures forall j | i < j < |all| :: all[i].id != all[j].id
    {
      if i < |pushed| {
        assert all[i] == pushed[i];
        assert forall j | i < j < |pushed| :: all[j] == pushed[j];
      }
    }
  }

  lemma {:induction false} FreshIdsHold(run: seq<Step>)
    requires Legal(run)
    ensures FreshIds(After(run), Pushed(run))
  {
    if run != [] {
      var earlier := run[..|run| - 1];
      FreshIdsHold(earlier);
      TakenIdsAreLatest(earlier);
      var s, step := After(earlier), run[|run| - 1];
      match step
      case TakeId(r) => FreshIdsAfterTake(s, Pushed(earlier), r);
      case Push(r, p, e, b) => FreshIdsAfterPush(s, Pushed(earlier), step, EventRecord(s.taken[r], p, e, b));
      case Clear =>
    }
  }

  lemma {:induction false} EventsAreTail(run: seq<Step>)
    requires Legal(run)
    ensures After(run).events == Last(PushedSinceClear(run), CAPACITY)
  {
    if run != [] {
      var earlier := run[..|run| - 1];
      EventsAreTail(earlier);
      TakenIdsAreLatest(earlier);
      match run[|run| - 1]
      case Push(r, p, e, b) =>
        DrainKeepsLast(PushedSinceClear(earlier), EventRecord(After(earlier).taken[r], p, e, b));
      case _ =>
    }
  }

  /** The log keeps only records pushed since the last clear, which are a part of all pushes. */
  lemma {:induction false} SinceClearIsSuffix(run: seq<Step>)
    ensures |PushedSinceClear(run)| <= |Pushed(run)|
    ensures PushedSinceClear(run) == Pushed(run)[|Pushed(run)| - |PushedSinceClear(run)|..]
  {
    if run != [] {
      SinceClearIsSuffix(run[..|run| - 1]);
    }
  }

  /** The snapshot shows, newest first, exactly the last min(n, 500) of the n pushes since the last clear. */
  lemma SnapshotIsReversedTail(run: seq<Step>)
    requires Legal(run)
    ensures Reversed(After(run).events) == Reversed(Last(PushedSinceClear(run), CAPACITY))
    ensures |After(run).events| == if |PushedSinceClear(run)| < CAPACITY then |PushedSinceClear(run)| else CAPACITY
  {
    EventsAreTail(run);
  }

  /** However receivers interleave, no two logged records share an id and none is above the sequence. */
  lemma LoggedIdsDistinctAndBounded(run: seq<Step>)
    requires Legal(run)
    ensures DistinctIds(After(run).events)
    ensures forall i | 0 <= i < |After(run).events| :: 1 <= After(run).events[i].id <= After(run).sequence
    ensures DistinctIds(Pushed(run))
  {
    FreshIdsHold(run);
    EventsAreTail(run);
    SinceClearIsSuffix(run);
    var all, since, logged := Pushed(run), PushedSinceClear(run), After(run).events;
    forall i | 0 <= i < |logged| ensures logged[i] == all[|all| - |logged| + i] {
      assert logged[i] == since[|since| - |logged| + i];
    }
  }

  lemma OneMore(run: seq<Step>, s: Step)
    requires Legal(run) && Enabled(After(run), s)
    ensures Legal(run + [s]) && After(run + [s]) == Apply(After(run), s)
  {
    assert (run + [s])[..|run|] == run;
  }

  /** Ids need not be logged in order: a receiver that took the smaller id may push second. */
  lemma OrderMayDiffer() returns (run: seq<Step>)
    ensures Legal(run)
    ensures |After(run).events| == 2 && After(run).events[0].id > After(run).events[1].id
  {
    run := [];
    OneMore(run, TakeId(1));
    run := run + [TakeId(1)];
    assert After(run) == State(1, map[1 := 1], []);
    OneMore(run, TakeId(2));
    run := run + [TakeId(2)];
    assert After(run) == State(2, map[1 := 1, 2 := 2], []);
    OneMore(run, Push(2, "p", "e", "b"));
    run := run + [Push(2, "p", "e", "b")];
    assert After(run) == State(2, map[1 := 1], [EventRecord(2, "p", "e", "b")]);
    OneMore(run, Push(1, "p", "e", "b"));
    run := run + [Push(1, "p", "e", "b")];
  }

  // The log as the source runs it

  /**
   * The process-wide sequence and vector, each behind its own mutex. Every method is one locked region, and so
   * one step of the interleaving that `run` records; a receiver is any token not in use.
   */
  class EventLog {
    var sequence: nat
    var events: seq<EventRecord>
    ghost var run: seq<Step>

    ghost predicate Valid()
      reads this
    {
      Legal(run) && After(run).sequence == sequence && After(run).events == events
    }

    constructor ()
      ensures Valid() && run == [] && sequence == 0 && events == []
    {
      sequence, events, run := 0, [], [];
    }

    method NextId(ghost receiver: nat) returns (id: nat)
      requires Valid() && receiver !in After(run).taken
      modifies this`sequence, this`run
      ensures Valid() && run == old(run) + [TakeId(receiver)]
      ensures id == sequence == old(sequence) + 1 && After(run).taken[receiver] == id
    {
      OneMore(run, TakeId(receiver));
      sequence, run := sequence + 1, run + [TakeId(receiver)];
      id := sequence;
    }

    method PushEvent(ghost receiver: nat, record: EventRecord)
      requires Valid() && receiver in After(run).taken && record.id == After(run).taken[receiver]
      modifies this`events, this`run
      ensures Valid() && run == old(run) + [Push(receiver, record.provider, record.event, record.payload)]
      ensures events == Drained(old(events) + [record]) && receiver !in After(run).taken
    {
      ghost var step := Push(receiver, record.provider, record.event, record.payload);
      OneMore(run, step);
      run := run + [step];
      events := events + [record];
      if |events| > CAPACITY {
        var overflow := |events| - CAPACITY;
        events := events[overflow..];
      }
    }

    method ListEventsSnapshot() returns (snapshot: seq<EventRecord>)
      requires Valid()
      ensures snapshot == Reversed(events) == Reversed(Last(PushedSinceClear(run), CAPACITY))
    {
      SnapshotIsReversedTail(run);
      snapshot := Reversed(events);
    }

    method ClearEvents()
      requires Valid()
      modifies this`events, this`run
      ensures Valid() && run == old(run) + [Clear] && events == []
    {
      OneMore(run, Clear);
      events, run := [], run + [Clear];
    }
  }
}
