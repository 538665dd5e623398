/**
 * The start/stop protocol never gets stuck: while a call is in flight some call can take a step, and calls take
 * only so many steps.
 */
module ServiceProgress {
  import opened Wrappers
  import opened ServiceLifecycle

  predicate Asks(a: Action) {
    a.AskStart? || a.AskStop?
  }

  /** A step of a call in flight; telling a thread that has been told is none. */
  predicate Moves(s: State, a: Action) {
    !Asks(a) && Enabled(s, a) && (a.Tell? ==> NextToJoin(s.frames[a.t].old').value !in s.told)
  }

  // Some call can move

  ghost predicate PendingInv(s: State) {
    forall t | t in s.frames :: s.frames[t].Spawning? ==> s.frames[t].pending != []
  }

  lemma PendingInvKept(s: State, a: Action)
    requires PendingInv(s) && Enabled(s, a)
    ensures PendingInv(Apply(s, a))
  {
  }

  lemma {:induction false} PendingInvHolds(s: State, run: seq<Action>)
    requires PendingInv(s) && Legal(s, run)
    ensures PendingInv(After(s, run))
    decreases |run|
  {
    if run != [] {
      PendingInvKept(s, run[0]);
      PendingInvHolds(Apply(s, run[0]), run[1..]);
    }
  }

  /** What a call does next when it does not wait for the start lock. */
  function NextAction(s: State, t: nat): (a: Action)
    requires t in s.frames && !s.frames[t].Waiting?
    requires s.frames[t].Spawning? ==> s.frames[t].pending != []
    ensures Moves(s, a)
  {
    match s.frames[t]
    case Deciding(_) => Decide(t)
    case Clearing(_) => Take(t)
    case Stopping => Take(t)
    case Closing(_, h) => if NextToJoin(h).Some? && NextToJoin(h).value !in s.told then Tell(t) else Join(t)
    case Joining(h) => if NextToJoin(h).Some? && NextToJoin(h).value !in s.told then Tell(t) else Join(t)
    case Binding(_) => BindFails(t)
    case Spawning(_, _, _, _, pending) => if pending[0] == Mirror then SkipMirror(t) else Spawn(t)
    case Storing(_) => Store(t)
    case Leaving => Release(t)
  }

  lemma SomeCallMoves(s: State) returns (a: Action)
    requires LockInv(s) && PendingInv(s) && s.frames != map[]
    ensures Moves(s, a)
  {
    var t :| t in s.frames;
    if !s.frames[t].Waiting? {
      a := NextAction(s, t);
    } else if s.lock == None {
      a := Acquire(t);
    } else {
      a := NextAction(s, s.lock.value);
    }
  }

  /** In every interleaving, while a call is in flight some call can take a step. */
  lemma NeverStuck(kind: Kind, run: seq<Action>) returns (a: Action)
    requires Legal(Initial(kind), run) && After(Initial(kind), run).frames != map[]
    ensures Moves(After(Initial(kind), run), a)
  {
    LockInvHolds(Initial(kind), run);
    PendingInvHolds(Initial(kind), run);
    a := SomeCallMoves(After(Initial(kind), run));
  }

  // Calls take only so many steps

  const MOST: nat := 13

  function Threads(h: Handle): nat {
    (if h.main.Some? then 1 else 0) + (if h.mirror.Some? then 1 else 0)
  }

  /** A thread still has to be told and joined. */
  function JoinSteps(h: Handle, told: set<nat>): nat {
    2 * Threads(h) - if NextToJoin(h).Some? && NextToJoin(h).value in told then 1 else 0
  }

  /** The most steps a call may still take. */
  function Weight(f: Frame, told: set<nat>): nat {
    match f
    case Waiting(_) => MOST
    case Deciding(_) => 12
    case Clearing(_) => 11
    case Stopping => 11
    case Closing(_, h) => 6 + JoinSteps(h, told)
    case Joining(h) => 6 + JoinSteps(h, told)
    case Binding(_) => 5
    case Spawning(_, _, _, _, pending) => 2 + |pending|
    case Storing(_) => 2
    case Leaving => 1
  }

  function Work(s: State, t: nat): nat {
    if t in s.frames then Weight(s.frames[t], s.told) else 0
  }

  /** A step leaves its own call less to do, and no other call more. */
  lemma MoveDoesWork(s: State, a: Action, t: nat)
    requires Moves(s, a)
    ensures Work(Apply(s, a), t) <= Work(s, t)
    ensures t == a.t ==> Work(Apply(s, a), t) < Work(s, t)
  {
    if t == a.t {
      OwnWork(s, a);
    } else {
      OtherFrame(s, a, t);
      assert s.told <= Apply(s, a).told;
    }
  }

  lemma OwnWork(s: State, a: Action)
    requires Moves(s, a)
    ensures Work(Apply(s, a), a.t) < Work(s, a.t)
  {
  }

  lemma OtherFrame(s: State, a: Action, t: nat)
    requires Enabled(s, a) && t != a.t
    ensures t in Apply(s, a).frames <==> t in s.frames
    ensures t in s.frames ==> Apply(s, a).frames[t] == s.frames[t]
  {
  }

  ghost function Total(s: State, calls: set<nat>): nat {
    if calls == {} then 0 else var t :| t in calls; Work(s, t) + Total(s, calls - {t})
  }

  lemma {:induction false} TotalDrops(s: State, s': State, calls: set<nat>, u: nat)
    requires forall t | t in calls :: Work(s', t) <= Work(s, t)
    ensures Total(s', calls) <= Total(s, calls)
    ensures u in calls && Work(s', u) < Work(s, u) ==> Total(s', calls) < Total(s, calls)
    decreases calls
  {
    if calls != {} {
      var t :| t in calls && Total(s, calls) == Work(s, t) + Total(s, calls - {t})
                          && Total(s', calls) == Work(s', t) + Total(s', calls - {t});
      TotalDrops(s, s', calls - {t}, u);
    }
  }

  lemma {:induction false} TotalIsBounded(s: State, calls: set<nat>)
    requires forall t | t in calls :: Work(s, t) <= MOST
    ensures Total(s, calls) <= MOST * |calls|
    decreases calls
  {
    if calls != {} {
      var t :| t in calls && Total(s, calls) == Work(s, t) + Total(s, calls - {t});
      TotalIsBounded(s, calls - {t});
    }
  }

  /** A legal run in which every action is a step of a call in flight. */
  predicate Moving(s: State, run: seq<Action>)
    decreases |run|
  {
    run == [] || (Moves(s, run[0]) && Moving(Apply(s, run[0]), run[1..]))
  }

  lemma {:induction false} MovingIsLegal(s: State, run: seq<Action>)
    requires Moving(s, run)
    ensures Legal(s, run)
    decreases |run|
  {
    if run != [] {
      MovingIsLegal(Apply(s, run[0]), run[1..]);
    }
  }

  lemma {:induction false} MovesAreCounted(s: State, run: seq<Action>, calls: set<nat>)
    requires Moving(s, run) && s.frames.Keys <= calls
    ensures |run| <= Total(s, calls)
    decreases |run|
  {
    if run != [] {
      var s' := Apply(s, run[0]);
      forall t | t in calls ensures Work(s', t) <= Work(s, t) {
        MoveDoesWork(s, run[0], t);
      }
      MoveDoesWork(s, run[0], run[0].t);
      TotalDrops(s, s', calls, run[0].t);
      MovesAreCounted(s', run[1..], calls);
    }
  }

  ghost predicate SpawnsLeft(s: State) {
    forall t | t in s.frames :: s.frames[t].Spawning? ==> |s.frames[t].pending| <= 2
  }

  lemma {:induction false} SpawnsLeftHolds(s: State, run: seq<Action>)
    requires SpawnsLeft(s) && Legal(s, run)
    ensures SpawnsLeft(After(s, run))
    decreases |run|
  {
    if run != [] {
      SpawnsLeftHolds(Apply(s, run[0]), run[1..]);
    }
  }

  /** From every reachable state the calls in flight take at most 13 steps each, however they interleave. */
  lemma StepsAreBounded(kind: Kind, run: seq<Action>, more: seq<Action>)
    requires Legal(Initial(kind), run) && Moving(After(Initial(kind), run), more)
    ensures |more| <= MOST * |After(Initial(kind), run).frames|
  {
    var s := After(Initial(kind), run);
    SpawnsLeftHolds(Initial(kind), run);
    MovesAreCounted(s, more, s.frames.Keys);
    TotalIsBounded(s, s.frames.Keys);
  }

  /** A run of steps that none can follow is one after which every call has returned. */
  lemma MaximalRunsReturn(kind: Kind, run: seq<Action>, more: seq<Action>)
    requires Legal(Initial(kind), run) && Moving(After(Initial(kind), run), more)
    ensures Legal(After(Initial(kind), run), more)
    ensures (forall a :: !Moves(After(After(Initial(kind), run), more), a))
            <==> After(After(Initial(kind), run), more).frames == map[]
  {
    var s := After(Initial(kind), run);
    MovingIsLegal(s, more);
    LockInvHolds(Initial(kind), run);
    PendingInvHolds(Initial(kind), run);
    LockInvHolds(s, more);
    PendingInvHolds(s, more);
    if After(s, more).frames != map[] {
      var a := SomeCallMoves(After(s, more));
    }
  }
}
