/**
 * The start/stop protocol shared by the four background services: a start lock held by a starter from
 * its decision to its return, a separate lock on the slot of the running handle, and a stop that takes
 * only the slot lock. Each action below is one region that the source runs atomically; any number of
 * starters and stoppers interleave. Server threads are numbered in spawn order.
 */
module ServiceLifecycle {
  import opened Wrappers
  import opened Text

  datatype Kind = Api | Web | Webhook | WebSocket

  /** `valid` is the verdict of the bind validation; the API and the web port have no path. */
  datatype Config = Config(enabled: bool, valid: bool, host: string, port: nat, path: string)

  /** A running service; an adopted external instance has no threads. */
  datatype Handle = Handle(host: string, port: nat, path: string, main: Option<nat>, mirror: Option<nat>)

  // Hosts

  predicate IsLoopback(host: string) {
    Trim(host) in ["127.0.0.1", "localhost", "::1", "[::1]"]
  }

  /** Whether a running handle already serves the configuration. */
  predicate Reuses(kind: Kind, h: Handle, c: Config) {
    match kind
    case Api => true
    case Web => (h.host == c.host || (IsPublicBindHost(c.host) && !IsLoopback(h.host))) && h.port == c.port
    case _ => h.host == c.host && h.port == c.port && h.path == c.path
  }

  /** Whether a second listener on the loopback address accompanies the effective bind. */
  predicate WantsMirror(kind: Kind, configured: string, effective: string) {
    match kind
    case Api => false
    case Web => IsPublicBindHost(configured) && !IsPublicBindHost(effective) && !IsLoopback(effective)
    case _ => !IsPublicBindHost(effective) && !IsLoopback(effective) && !IsLoopback(configured)
  }

  // States

  datatype Role = Main | Mirror

  /** The web port spawns its mirror first; the others spawn the main thread first. */
  function SpawnOrder(kind: Kind): seq<Role> {
    match kind
    case Api => [Main]
    case Web => [Mirror, Main]
    case _ => [Main, Mirror]
  }

  datatype Frame =
    | Waiting(config: Config)
    | Deciding(config: Config)
    | Clearing(config: Config)
    | Closing(config: Config, old': Handle)
    | Binding(config: Config)
    | Spawning(config: Config, host: string, main: Option<nat>, mirror: Option<nat>, pending: seq<Role>)
    | Storing(handle: Handle)
    | Leaving
    | Stopping
    | Joining(old': Handle)

  datatype State = State(
    kind: Kind, lock: Option<nat>, slot: Option<Handle>, frames: map<nat, Frame>,
    next: nat, joined: set<nat>, detached: set<nat>, told: set<nat>)

  function Initial(kind: Kind): State {
    State(kind, None, None, map[], 0, {}, {}, {})
  }

  datatype Action =
    | AskStart(t: nat, config: Config)
    | AskStop(t: nat)
    | Acquire(t: nat)
    | Decide(t: nat)
    | Take(t: nat)
    | Tell(t: nat)
    | Join(t: nat)
    | Adopt(t: nat)
    | BindFails(t: nat)
    | Bind(t: nat, host: string)
    | Spawn(t: nat)
    | SkipMirror(t: nat)
    | SpawnFails(t: nat)
    | Store(t: nat)
    | Release(t: nat)

  /** A call that took a handle out of the slot and is stopping its servers. */
  predicate HoldsTaken(f: Frame) {
    f.Closing? || f.Joining?
  }

  /** The mirror is stopped before the main thread. */
  function NextToJoin(h: Handle): Option<nat> {
    if h.mirror.Some? then h.mirror else h.main
  }

  predicate HoldsLock(f: Frame) {
    !f.Waiting? && !f.Stopping? && !f.Joining?
  }

  predicate Enabled(s: State, a: Action) {
    match a
    case AskStart(t, c) => t !in s.frames && (s.kind == Api ==> c.valid)
    case AskStop(t) => t !in s.frames
    case Acquire(t) => t in s.frames && s.frames[t].Waiting? && s.lock == None
    case Decide(t) => t in s.frames && s.frames[t].Deciding?
    case Take(t) => t in s.frames && (s.frames[t].Clearing? || s.frames[t].Stopping?)
    case Tell(t) => t in s.frames && HoldsTaken(s.frames[t]) && NextToJoin(s.frames[t].old').Some?
    case Join(t) =>
      t in s.frames && HoldsTaken(s.frames[t])
      && (NextToJoin(s.frames[t].old').Some? ==> NextToJoin(s.frames[t].old').value in s.told)
    case Adopt(t) => t in s.frames && s.frames[t].Binding?
    case BindFails(t) => t in s.frames && s.frames[t].Binding?
    case Bind(t, _) => t in s.frames && s.frames[t].Binding?
    case Spawn(t) =>
      t in s.frames && s.frames[t].Spawning? && s.frames[t].pending != []
      && (s.frames[t].pending[0] == Mirror ==> WantsMirror(s.kind, s.frames[t].config.host, s.frames[t].host))
    case SkipMirror(t) => t in s.frames && s.frames[t].Spawning? && s.frames[t].pending != [] && s.frames[t].pending[0] == Mirror
    case SpawnFails(t) => t in s.frames && s.frames[t].Spawning? && s.frames[t].main.None?
    case Store(t) => t in s.frames && s.frames[t].Storing?
    case Release(t) => t in s.frames && s.frames[t].Leaving?
  }

  function Ids(main: Option<nat>, mirror: Option<nat>): set<nat> {
    (if main.Some? then {main.value} else {}) + (if mirror.Some? then {mirror.value} else {})
  }

  /** What a starter does once it has read the slot. */
  function Decision(s: State, c: Config): Frame {
    if s.kind != Api && !c.enabled then Leaving
    else if (s.kind == Webhook || s.kind == WebSocket) && !c.valid then Leaving
    else if s.slot.Some? && Reuses(s.kind, s.slot.value, c) then Leaving
    else if s.slot.None? && (s.kind == Api || s.kind == Web) then Binding(c)
    else Clearing(c)
  }

  /** The frame after one thread is spawned or skipped; nothing pending means the handle is complete. */
  function Spawned(f: Frame, main: Option<nat>, mirror: Option<nat>): Frame
    requires f.Spawning? && f.pending != []
  {
    if |f.pending| == 1 then Storing(Handle(f.host, f.config.port, f.config.path, main, mirror))
    else f.(main := main, mirror := mirror, pending := f.pending[1..])
  }

  /** A stop joins the mirror, then the main thread, then is done with the handle. */
  function AfterJoins(f: Frame): Option<Frame>
    requires HoldsTaken(f)
  {
    if f.Closing? then Some(Binding(f.config)) else None
  }

  function SetFrame(s: State, t: nat, f: Frame): State {
    s.(frames := s.frames[t := f])
  }

  function DropFrame(s: State, t: nat): State {
    s.(frames := s.frames - {t})
  }

  function Apply(s: State, a: Action): State
    requires Enabled(s, a)
  {
    match a
    case AskStart(t, c) => SetFrame(s, t, Waiting(c))
    case AskStop(t) => SetFrame(s, t, Stopping)
    case Acquire(t) => SetFrame(s, t, Deciding(s.frames[t].config)).(lock := Some(t))
    case Decide(t) => SetFrame(s, t, Decision(s, s.frames[t].config))
    case Take(t) => ApplyTake(s, t)
    case Tell(t) => s.(told := s.told + {NextToJoin(s.frames[t].old').value})
    case Join(t) => ApplyJoin(s, t)
    case Adopt(t) =>
      var c := s.frames[t].config;
      if s.kind == Api || s.kind == Web then SetFrame(s, t, Leaving)
      else SetFrame(s, t, Storing(Handle(c.host, c.port, c.path, None, None)))
    case BindFails(t) => SetFrame(s, t, Leaving)
    case Bind(t, host) => SetFrame(s, t, Spawning(s.frames[t].config, host, None, None, SpawnOrder(s.kind)))
    case Spawn(t) => ApplySpawn(s, t)
    case SkipMirror(t) => SetFrame(s, t, Spawned(s.frames[t], s.frames[t].main, s.frames[t].mirror))
    case SpawnFails(t) =>
      var dropped := Ids(None, s.frames[t].mirror);
      SetFrame(s, t, Leaving).(detached := s.detached + dropped, told := s.told + dropped)
    case Store(t) => SetFrame(s, t, Leaving).(slot := Some(s.frames[t].handle))
    case Release(t) => DropFrame(s, t).(lock := None)
  }

  function ApplyTake(s: State, t: nat): State
    requires Enabled(s, Take(t))
  {
    var f := s.frames[t];
    match s.slot
    case Some(h) => SetFrame(s, t, if f.Clearing? then Closing(f.config, h) else Joining(h)).(slot := None)
    case None => if f.Clearing? then SetFrame(s, t, Binding(f.config)) else DropFrame(s, t)
  }

  function ApplyJoin(s: State, t: nat): State
    requires Enabled(s, Join(t))
  {
    var f := s.frames[t];
    if f.old'.mirror.Some? then
      SetFrame(s, t, f.(old' := f.old'.(mirror := None))).(joined := s.joined + {f.old'.mirror.value})
    else if f.old'.main.Some? then
      SetFrame(s, t, f.(old' := f.old'.(main := None))).(joined := s.joined + {f.old'.main.value})
    else if f.Closing? then SetFrame(s, t, Binding(f.config))
    else DropFrame(s, t)
  }

  function ApplySpawn(s: State, t: nat): State
    requires Enabled(s, Spawn(t))
  {
    var f := s.frames[t];
    var g := if f.pending[0] == Main then Spawned(f, Some(s.next), f.mirror) else Spawned(f, f.main, Some(s.next));
    SetFrame(s, t, g).(next := s.next + 1)
  }

  predicate Legal(s: State, run: seq<Action>)
    decreases |run|
  {
    run == [] || (Enabled(s, run[0]) && Legal(Apply(s, run[0]), run[1..]))
  }

  function After(s: State, run: seq<Action>): State
    requires Legal(s, run)
    decreases |run|
  {
    if run == [] then s else After(Apply(s, run[0]), run[1..])
  }

  // Locks and the slot

  /** After its own decision or its own take, a starter knows that the slot is empty. */
  predicate KnowsEmpty(f: Frame) {
    f.Closing? || f.Binding? || f.Spawning? || f.Storing?
  }

  ghost predicate LockInv(s: State) {
    && (forall t | t in s.frames :: HoldsLock(s.frames[t]) ==> s.lock == Some(t))
    && (s.lock.Some? ==> s.lock.value in s.frames && HoldsLock(s.frames[s.lock.value]))
    && (forall t | t in s.frames :: KnowsEmpty(s.frames[t]) ==> s.slot == None)
  }

  lemma LockInvKept(s: State, a: Action)
    requires LockInv(s) && Enabled(s, a)
    ensures LockInv(Apply(s, a))
  {
  }

  lemma {:induction false} LockInvHolds(s: State, run: seq<Action>)
    requires LockInv(s) && Legal(s, run)
    ensures LockInv(After(s, run))
    decreases |run|
  {
    if run != [] {
      LockInvKept(s, run[0]);
      LockInvHolds(Apply(s, run[0]), run[1..]);
    }
  }

  /** In every interleaving a starter finds the slot empty when it stores, so no handle is overwritten. */
  lemma SlotEmptyAtStore(kind: Kind, run: seq<Action>, t: nat)
    requires Legal(Initial(kind), run) && Enabled(After(Initial(kind), run), Store(t))
    ensures After(Initial(kind), run).slot == None
  {
    LockInvHolds(Initial(kind), run);
  }

  /** At most one starter is past the lock at any time. */
  lemma OneStarterAtATime(kind: Kind, run: seq<Action>, t: nat, u: nat)
    requires Legal(Initial(kind), run)
    requires t in After(Initial(kind), run).frames && HoldsLock(After(Initial(kind), run).frames[t])
    requires u in After(Initial(kind), run).frames && HoldsLock(After(Initial(kind), run).frames[u])
    ensures t == u
  {
    LockInvHolds(Initial(kind), run);
  }

  // Where each server is

  datatype Place = Slot | InFlight(t: nat) | Joined | Detached

  function HandleIds(h: Handle): set<nat> {
    Ids(h.main, h.mirror)
  }

  function FrameIds(f: Frame): set<nat> {
    match f
    case Closing(_, h) => HandleIds(h)
    case Joining(h) => HandleIds(h)
    case Storing(h) => HandleIds(h)
    case Spawning(_, _, main, mirror, _) => Ids(main, mirror)
    case _ => {}
  }

  predicate At(s: State, p: Place, id: nat) {
    match p
    case Slot => s.slot.Some? && id in HandleIds(s.slot.value)
    case InFlight(t) => t in s.frames && id in FrameIds(s.frames[t])
    case Joined => id in s.joined
    case Detached => id in s.detached
  }

  /** A ledger says of every spawned server the one place where it is. */
  ghost predicate Ledger(s: State, w: map<nat, Place>) {
    && (forall id: nat :: id in w <==> id < s.next)
    && (forall p, id: nat :: At(s, p, id) <==> id in w && w[id] == p)
  }

  predicate Apart(main: Option<nat>, mirror: Option<nat>) {
    main.Some? && mirror.Some? ==> main.value != mirror.value
  }

  predicate FrameOk(kind: Kind, f: Frame) {
    match f
    case Closing(_, h) => Apart(h.main, h.mirror)
    case Joining(h) => Apart(h.main, h.mirror)
    case Storing(h) => Apart(h.main, h.mirror)
    case Spawning(_, _, main, mirror, pending) =>
      && Apart(main, mirror)
      && (Main in pending <==> main.None?) && (Mirror in pending ==> mirror.None?)
      && |pending| <= 2 && (|pending| == 2 ==> pending[0] != pending[1])
      && (kind != Web && |pending| == 2 ==> pending[0] == Main)
      && (kind != Web && main.None? ==> mirror.None?)
    case _ => true
  }

  ghost predicate ShapeInv(s: State) {
    && (forall t | t in s.frames :: FrameOk(s.kind, s.frames[t]))
    && (s.slot.Some? ==> Apart(s.slot.value.main, s.slot.value.mirror))
  }

  ghost predicate Inv(s: State, w: map<nat, Place>) {
    LockInv(s) && ShapeInv(s) && Ledger(s, w)
  }

  /** A frame change that holds the same servers as before moves nothing. */
  lemma QuietFrame(s: State, w: map<nat, Place>, t: nat, f: Frame)
    requires Ledger(s, w)
    requires FrameIds(f) == if t in s.frames then FrameIds(s.frames[t]) else {}
    ensures Ledger(SetFrame(s, t, f), w)
  {
    var s' := SetFrame(s, t, f);
    forall p, id: nat ensures At(s', p, id) <==> At(s, p, id) {
    }
  }

  lemma QuietDrop(s: State, w: map<nat, Place>, t: nat)
    requires Ledger(s, w)
    requires t in s.frames && FrameIds(s.frames[t]) == {}
    ensures Ledger(DropFrame(s, t), w)
  {
    var s' := DropFrame(s, t);
    forall p, id: nat ensures At(s', p, id) <==> At(s, p, id) {
    }
  }

  lemma LedgerIgnoresLock(s: State, w: map<nat, Place>, lock: Option<nat>)
    requires Ledger(s, w)
    ensures Ledger(s.(lock := lock), w)
  {
    forall p, id: nat ensures At(s.(lock := lock), p, id) <==> At(s, p, id) {
    }
  }

  lemma LedgerIgnoresTold(s: State, w: map<nat, Place>, told: set<nat>)
    requires Ledger(s, w)
    ensures Ledger(s.(told := told), w)
  {
    forall p, id: nat ensures At(s.(told := told), p, id) <==> At(s, p, id) {
    }
  }

  function Moved(w: map<nat, Place>, ids: set<nat>, p: Place): map<nat, Place> {
    map id | id in w :: if id in ids then p else w[id]
  }

  lemma LedgerAfterTake(s: State, w: map<nat, Place>, t: nat) returns (w': map<nat, Place>)
    requires Ledger(s, w) && Enabled(s, Take(t))
    ensures Ledger(Apply(s, Take(t)), w')
  {
    var s' := ApplyTake(s, t);
    if s.slot.None? {
      w' := w;
      if s.frames[t].Clearing? {
        QuietFrame(s, w, t, Binding(s.frames[t].config));
      } else {
        QuietDrop(s, w, t);
      }
    } else {
      var ids := HandleIds(s.slot.value);
      w' := Moved(w, ids, InFlight(t));
      forall id | id in ids ensures id in w && w[id] == Slot {
        assert At(s, Slot, id);
      }
      forall p, id: nat ensures At(s', p, id) <==> id in w' && w'[id] == p {
        if p == InFlight(t) {
          assert At(s', p, id) <==> id in ids;
          assert !At(s, p, id);
        } else if p == Slot {
          assert At(s, p, id) <==> id in ids;
        } else {
          assert At(s', p, id) <==> At(s, p, id);
        }
      }
    }
  }

  lemma LedgerAfterStore(s: State, w: map<nat, Place>, t: nat) returns (w': map<nat, Place>)
    requires Ledger(s, w) && Enabled(s, Store(t)) && s.slot == None
    ensures Ledger(Apply(s, Store(t)), w')
  {
    var s', ids := Apply(s, Store(t)), HandleIds(s.frames[t].handle);
    w' := Moved(w, ids, Slot);
    forall id | id in ids ensures id in w && w[id] == InFlight(t) {
      assert At(s, InFlight(t), id);
    }
    forall p, id: nat ensures At(s', p, id) <==> id in w' && w'[id] == p {
      if p == Slot {
        assert At(s', p, id) <==> id in ids;
        assert !At(s, p, id);
      } else if p == InFlight(t) {
        assert At(s, p, id) <==> id in ids;
      } else {
        assert At(s', p, id) <==> At(s, p, id);
      }
    }
  }

  lemma LedgerAfterJoinOne(s: State, w: map<nat, Place>, t: nat, id: nat, f: Frame)
    requires Ledger(s, w) && t in s.frames
    requires id in FrameIds(s.frames[t]) && FrameIds(f) == FrameIds(s.frames[t]) - {id}
    ensures Ledger(SetFrame(s, t, f).(joined := s.joined + {id}), w[id := Joined])
  {
    var s' := SetFrame(s, t, f).(joined := s.joined + {id});
    assert At(s, InFlight(t), id);
    forall p, k: nat ensures At(s', p, k) <==> k in w[id := Joined] && w[id := Joined][k] == p {
      if k == id {
        assert At(s, p, k) <==> p == InFlight(t);
      } else {
        assert At(s', p, k) <==> At(s, p, k);
      }
    }
  }

  lemma LedgerAfterJoin(s: State, w: map<nat, Place>, t: nat) returns (w': map<nat, Place>)
    requires Ledger(s, w) && ShapeInv(s) && Enabled(s, Join(t))
    ensures Ledger(Apply(s, Join(t)), w')
  {
    var f := s.frames[t];
    assert FrameOk(s.kind, f);
    if f.old'.mirror.Some? {
      w' := w[f.old'.mirror.value := Joined];
      LedgerAfterJoinOne(s, w, t, f.old'.mirror.value, f.(old' := f.old'.(mirror := None)));
    } else if f.old'.main.Some? {
      w' := w[f.old'.main.value := Joined];
      LedgerAfterJoinOne(s, w, t, f.old'.main.value, f.(old' := f.old'.(main := None)));
    } else {
      w' := w;
      if f.Closing? {
        QuietFrame(s, w, t, Binding(f.config));
      } else {
        QuietDrop(s, w, t);
      }
    }
  }

  /** A frame that holds one new server besides those it held. */
  lemma LedgerWithNew(s: State, w: map<nat, Place>, t: nat, f: Frame)
    requires Ledger(s, w) && t in s.frames && FrameIds(f) == FrameIds(s.frames[t]) + {s.next}
    ensures Ledger(SetFrame(s, t, f).(next := s.next + 1), w[s.next := InFlight(t)])
  {
    var s' := SetFrame(s, t, f).(next := s.next + 1);
    forall p, id: nat ensures At(s', p, id) <==> id in w[s.next := InFlight(t)] && w[s.next := InFlight(t)][id] == p {
      if id == s.next {
        assert !At(s, p, id);
      } else {
        assert At(s', p, id) <==> At(s, p, id);
      }
    }
  }

  lemma LedgerAfterSpawn(s: State, w: map<nat, Place>, t: nat)
    requires Ledger(s, w) && ShapeInv(s) && Enabled(s, Spawn(t))
    ensures Ledger(Apply(s, Spawn(t)), w[s.next := InFlight(t)])
  {
    assert FrameOk(s.kind, s.frames[t]);
    LedgerWithNew(s, w, t, ApplySpawn(s, t).frames[t]);
  }

  lemma LedgerAfterSpawnFails(s: State, w: map<nat, Place>, t: nat) returns (w': map<nat, Place>)
    requires Ledger(s, w) && Enabled(s, SpawnFails(t))
    ensures Ledger(Apply(s, SpawnFails(t)), w')
  {
    var s', ids := Apply(s, SpawnFails(t)), Ids(None, s.frames[t].mirror);
    w' := Moved(w, ids, Detached);
    assert FrameIds(s.frames[t]) == ids;
    forall id | id in ids ensures id in w && w[id] == InFlight(t) {
      assert At(s, InFlight(t), id);
    }
    forall p, id: nat ensures At(s', p, id) <==> id in w' && w'[id] == p {
      if p == Detached {
        assert At(s', p, id) <==> id in ids || At(s, p, id);
      } else if p == InFlight(t) {
        assert At(s, p, id) <==> id in ids;
      } else {
        assert At(s', p, id) <==> At(s, p, id);
      }
    }
  }

  lemma RestOfPending(pending: seq<Role>)
    requires pending != [] && |pending| <= 2 && (|pending| == 2 ==> pending[0] != pending[1])
    ensures forall r :: r in pending[1..] <==> r in pending && r != pending[0]
  {
    if |pending| == 1 {
      assert pending == [pending[0]];
    } else {
      assert pending == [pending[0], pending[1]] && pending[1..] == [pending[1]];
    }
  }

  lemma FrameOkAfterSpawn(kind: Kind, f: Frame, id: nat)
    requires FrameOk(kind, f) && f.Spawning? && f.pending != [] && id !in FrameIds(f)
    ensures FrameOk(kind, if f.pending[0] == Main then Spawned(f, Some(id), f.mirror) else Spawned(f, f.main, Some(id)))
    ensures f.pending[0] == Mirror ==> FrameOk(kind, Spawned(f, f.main, f.mirror))
  {
    RestOfPending(f.pending);
    assert f.mirror.Some? ==> f.mirror.value in FrameIds(f);
    assert f.main.Some? ==> f.main.value in FrameIds(f);
    assert f.pending[0] in f.pending;
    assert |f.pending| == 1 ==> f.pending == [f.pending[0]];
  }

  lemma ShapeInvKept(s: State, w: map<nat, Place>, a: Action)
    requires ShapeInv(s) && Ledger(s, w) && Enabled(s, a)
    ensures ShapeInv(Apply(s, a))
  {
    if a.t in s.frames {
      var f := s.frames[a.t];
      assert FrameOk(s.kind, f);
      if a.Spawn? || a.SkipMirror? {
        assert s.next !in FrameIds(f) by {
          assert !At(s, InFlight(a.t), s.next);
        }
        FrameOkAfterSpawn(s.kind, f, s.next);
      }
    }
  }

  /** Every action keeps the ledger: it moves servers between places and loses none. */
  lemma InvKept(s: State, w: map<nat, Place>, a: Action) returns (w': map<nat, Place>)
    requires Inv(s, w) && Enabled(s, a)
    ensures Inv(Apply(s, a), w')
  {
    LockInvKept(s, a);
    ShapeInvKept(s, w, a);
    assert a.t in s.frames ==> FrameOk(s.kind, s.frames[a.t]);
    match a
    case Take(t) => w' := LedgerAfterTake(s, w, t);
    case Store(t) => w' := LedgerAfterStore(s, w, t);
    case Join(t) => w' := LedgerAfterJoin(s, w, t);
    case Tell(t) =>
      w' := w;
      LedgerIgnoresTold(s, w, Apply(s, a).told);
    case Spawn(t) =>
      LedgerAfterSpawn(s, w, t);
      w' := w[s.next := InFlight(t)];
    case SpawnFails(t) => w' := LedgerAfterSpawnFails(s, w, t);
    case Acquire(t) =>
      w' := w;
      QuietFrame(s, w, t, Deciding(s.frames[t].config));
      LedgerIgnoresLock(SetFrame(s, t, Deciding(s.frames[t].config)), w, Some(t));
    case Release(t) =>
      w' := w;
      QuietDrop(s, w, t);
      LedgerIgnoresLock(DropFrame(s, t), w, None);
    case _ =>
      w' := w;
      QuietFrame(s, w, a.t, Apply(s, a).frames[a.t]);
  }

  lemma {:induction false} InvHolds(s: State, w: map<nat, Place>, run: seq<Action>) returns (w': map<nat, Place>)
    requires Inv(s, w) && Legal(s, run)
    ensures Inv(After(s, run), w')
    decreases |run|
  {
    w' := w;
    if run != [] {
      w' := InvKept(s, w, run[0]);
      w' := InvHolds(Apply(s, run[0]), w', run[1..]);
    }
  }

  /**
   * In every interleaving of any number of starters and stoppers, each server spawned so far, main or
   * mirror, is in exactly one place: the slot, one call in flight, joined, or detached.
   */
  lemma EveryServerInOnePlace(kind: Kind, run: seq<Action>, id: nat) returns (place: Place)
    requires Legal(Initial(kind), run) && id < After(Initial(kind), run).next
    ensures At(After(Initial(kind), run), place, id)
    ensures forall p :: At(After(Initial(kind), run), p, id) ==> p == place
  {
    var w := InvHolds(Initial(kind), map[], run);
    place := w[id];
  }

  // Detached servers

  /** A failed main spawn by a starter that already runs a mirror: the mirror's handle is dropped. */
  predicate Abandons(s: State, a: Action) {
    a.SpawnFails? && Enabled(s, a) && s.frames[a.t].mirror.Some?
  }

  predicate AbandonsSome(s: State, run: seq<Action>)
    requires Legal(s, run)
    decreases |run|
  {
    run != [] && (Abandons(s, run[0]) || AbandonsSome(Apply(s, run[0]), run[1..]))
  }

  lemma {:induction false} DetachedByAbandoning(s: State, run: seq<Action>)
    requires Legal(s, run)
    ensures After(s, run).detached != {} <==> s.detached != {} || AbandonsSome(s, run)
    decreases |run|
  {
    if run != [] {
      var s' := Apply(s, run[0]);
      assert s'.detached != {} <==> s.detached != {} || Abandons(s, run[0]) by {
        if Abandons(s, run[0]) {
          assert s.frames[run[0].t].mirror.value in s'.detached;
        } else if run[0].SpawnFails? {
          assert s'.detached == s.detached + {};
        }
      }
      DetachedByAbandoning(s', run[1..]);
    }
  }

  lemma {:induction false} OnlyWebAbandons(s: State, w: map<nat, Place>, run: seq<Action>)
    requires Inv(s, w) && Legal(s, run) && s.kind != Web
    ensures !AbandonsSome(s, run)
    decreases |run|
  {
    if run != [] {
      if run[0].SpawnFails? {
        assert FrameOk(s.kind, s.frames[run[0].t]);
      }
      var w' := InvKept(s, w, run[0]);
      OnlyWebAbandons(Apply(s, run[0]), w', run[1..]);
    }
  }

  /**
   * A server is never joined exactly when some starter's main spawn failed while its mirror was already
   * running, which only the web port's spawn order makes possible.
   */
  lemma NothingDetachedUnlessMirrorAbandoned(kind: Kind, run: seq<Action>)
    requires Legal(Initial(kind), run)
    ensures After(Initial(kind), run).detached != {} <==> AbandonsSome(Initial(kind), run)
    ensures kind != Web ==> After(Initial(kind), run).detached == {}
  {
    DetachedByAbandoning(Initial(kind), run);
    if kind != Web {
      OnlyWebAbandons(Initial(kind), map[], run);
    }
  }

  lemma RunHead(s: State, a: Action, rest: seq<Action>)
    requires Enabled(s, a) && Legal(Apply(s, a), rest)
    ensures Legal(s, [a] + rest) && After(s, [a] + rest) == After(Apply(s, a), rest)
  {
    assert ([a] + rest)[1..] == rest;
  }

  /** A web port run in which the mirror is told to stop, by its dropped sender, but never joined. */
  lemma WebMirrorCanBeAbandoned(c: Config, host: string) returns (run: seq<Action>)
    requires c.enabled && WantsMirror(Web, c.host, host)
    ensures Legal(Initial(Web), run)
    ensures After(Initial(Web), run).detached == {0} == After(Initial(Web), run).told
  {
    var s0 := Initial(Web);
    var s1 := SetFrame(s0, 1, Waiting(c));
    var s2 := SetFrame(s1, 1, Deciding(c)).(lock := Some(1));
    var s3 := SetFrame(s2, 1, Binding(c));
    assert Apply(s0, AskStart(1, c)) == s1 && Apply(s1, Acquire(1)) == s2 && Apply(s2, Decide(1)) == s3;
    run := AbandonsAfterBinding(s3, c, host);
    RunHead(s2, Decide(1), run);
    run := [Decide(1)] + run;
    RunHead(s1, Acquire(1), run);
    run := [Acquire(1)] + run;
    RunHead(s0, AskStart(1, c), run);
    run := [AskStart(1, c)] + run;
  }

  lemma AbandonsAfterBinding(s: State, c: Config, host: string) returns (run: seq<Action>)
    requires s.kind == Web && s.frames == map[1 := Binding(c)] && WantsMirror(Web, c.host, host)
    requires s.next == 0 && s.detached == {} && s.told == {}
    ensures Legal(s, run) && After(s, run).detached == {0} == After(s, run).told
  {
    var s1 := SetFrame(s, 1, Spawning(c, host, None, None, [Mirror, Main]));
    var s2 := SetFrame(s1, 1, Spawning(c, host, None, Some(0), [Mirror, Main][1..])).(next := 1);
    assert Apply(s, Bind(1, host)) == s1 && Apply(s1, Spawn(1)) == s2;
    run := [SpawnFails(1)] + [];
    RunHead(s2, SpawnFails(1), []);
    RunHead(s1, Spawn(1), run);
    run := [Spawn(1)] + run;
    RunHead(s, Bind(1, host), run);
    run := [Bind(1, host)] + run;
  }

  // Who has been told to stop

  /** Servers that a frame still counts as running, and so has not told anything. */
  function Running(f: Frame): set<nat> {
    if HoldsTaken(f) then
      if NextToJoin(f.old').Some? then FrameIds(f) - {NextToJoin(f.old').value} else {}
    else FrameIds(f)
  }

  /** Joined and detached servers were told to stop; the slot's, and those a call still runs, were not. */
  ghost predicate ToldInv(s: State) {
    && s.joined <= s.told && s.detached <= s.told
    && (forall id | id in s.told :: id < s.next)
    && (s.slot.Some? ==> HandleIds(s.slot.value) !! s.told)
    && (forall t | t in s.frames :: Running(s.frames[t]) !! s.told)
  }

  lemma OnlyHere(s: State, w: map<nat, Place>, t: nat, id: nat)
    requires Ledger(s, w) && t in s.frames && id in FrameIds(s.frames[t])
    ensures id < s.next && (s.slot.Some? ==> id !in HandleIds(s.slot.value))
    ensures forall u | u in s.frames && u != t :: id !in FrameIds(s.frames[u])
  {
    assert At(s, InFlight(t), id);
    assert s.slot.Some? ==> !At(s, Slot, id);
    forall u | u in s.frames && u != t ensures id !in FrameIds(s.frames[u]) {
      assert !At(s, InFlight(u), id);
    }
  }

  lemma ToldAfterTell(s: State, w: map<nat, Place>, t: nat)
    requires Ledger(s, w) && ToldInv(s) && Enabled(s, Tell(t))
    ensures ToldInv(Apply(s, Tell(t)))
  {
    OnlyHere(s, w, t, NextToJoin(s.frames[t].old').value);
  }

  lemma ToldAfterSpawnFails(s: State, w: map<nat, Place>, t: nat)
    requires Ledger(s, w) && ToldInv(s) && Enabled(s, SpawnFails(t))
    ensures ToldInv(Apply(s, SpawnFails(t)))
  {
    if s.frames[t].mirror.Some? {
      OnlyHere(s, w, t, s.frames[t].mirror.value);
    }
  }

  lemma ToldAfterJoin(s: State, t: nat)
    requires ShapeInv(s) && ToldInv(s) && Enabled(s, Join(t))
    ensures ToldInv(Apply(s, Join(t)))
  {
    assert FrameOk(s.kind, s.frames[t]);
  }

  lemma ToldAfterSpawn(s: State, t: nat)
    requires ShapeInv(s) && ToldInv(s) && Enabled(s, Spawn(t))
    ensures ToldInv(Apply(s, Spawn(t)))
  {
    assert FrameOk(s.kind, s.frames[t]);
    assert s.next !in s.told;
    assert FrameIds(Apply(s, Spawn(t)).frames[t]) <= FrameIds(s.frames[t]) + {s.next};
  }

  lemma ToldAfterTake(s: State, t: nat)
    requires ToldInv(s) && Enabled(s, Take(t))
    ensures ToldInv(Apply(s, Take(t)))
  {
  }

  /** The remaining actions tell nobody, and no frame or slot gets a server it did not hold. */
  lemma ToldAfterQuiet(s: State, a: Action)
    requires ToldInv(s) && Enabled(s, a) && !(a.Take? || a.Tell? || a.Join? || a.Spawn? || a.SpawnFails?)
    ensures ToldInv(Apply(s, a))
  {
  }

  lemma ToldInvKept(s: State, w: map<nat, Place>, a: Action)
    requires Inv(s, w) && ToldInv(s) && Enabled(s, a)
    ensures ToldInv(Apply(s, a))
  {
    if a.Take? {
      ToldAfterTake(s, a.t);
    } else if a.Tell? {
      ToldAfterTell(s, w, a.t);
    } else if a.Join? {
      ToldAfterJoin(s, a.t);
    } else if a.Spawn? {
      ToldAfterSpawn(s, a.t);
    } else if a.SpawnFails? {
      ToldAfterSpawnFails(s, w, a.t);
    } else {
      ToldAfterQuiet(s, a);
    }
  }

  lemma {:induction false} ToldInvHolds(s: State, w: map<nat, Place>, run: seq<Action>)
    requires Inv(s, w) && ToldInv(s) && Legal(s, run)
    ensures ToldInv(After(s, run))
    decreases |run|
  {
    if run != [] {
      ToldInvKept(s, w, run[0]);
      var w' := InvKept(s, w, run[0]);
      ToldInvHolds(Apply(s, run[0]), w', run[1..]);
    }
  }

  /**
   * In every interleaving, a server that is joined or detached has been told to stop, by a message or by a
   * dropped sender; one in the slot or with a starter that spawned it has not; and one whose handle a call took
   * has been told only if it is the one to be joined next.
   */
  lemma ToldToStop(kind: Kind, run: seq<Action>, place: Place, id: nat)
    requires Legal(Initial(kind), run) && At(After(Initial(kind), run), place, id)
    ensures var s := After(Initial(kind), run);
            match place
            case Joined => id in s.told
            case Detached => id in s.told
            case Slot => id !in s.told
            case InFlight(t) => id in s.told ==> HoldsTaken(s.frames[t]) && NextToJoin(s.frames[t].old') == Some(id)
  {
    ToldInvHolds(Initial(kind), map[], run);
  }

  /** With no call in flight, the servers not told to stop are exactly those in the slot. */
  lemma QuietServersRun(kind: Kind, run: seq<Action>, id: nat)
    requires Legal(Initial(kind), run) && After(Initial(kind), run).frames == map[]
    requires id < After(Initial(kind), run).next
    ensures id !in After(Initial(kind), run).told <==> At(After(Initial(kind), run), Slot, id)
  {
    var place := EveryServerInOnePlace(kind, run, id);
    ToldToStop(kind, run, place, id);
  }

  // Quiet states

  /** When no call is in flight the lock is free, and every server is the slot's, joined or detached. */
  lemma QuiescentAccounting(kind: Kind, run: seq<Action>, id: nat)
    requires Legal(Initial(kind), run) && After(Initial(kind), run).frames == map[]
    ensures After(Initial(kind), run).lock == None
    ensures id < After(Initial(kind), run).next ==>
              At(After(Initial(kind), run), Slot, id)
              || id in After(Initial(kind), run).joined
              || id in After(Initial(kind), run).detached
  {
    var w := InvHolds(Initial(kind), map[], run);
    if id < After(Initial(kind), run).next {
      assert At(After(Initial(kind), run), w[id], id);
    }
  }

  /** Whatever others do, the servers of a handle that a call took end up joined or are still with that call. */
  lemma {:induction false} TakenServersAreJoined(s: State, run: seq<Action>, t: nat, ids: set<nat>)
    requires Legal(s, run)
    requires ids <= s.joined + (if t in s.frames && HoldsTaken(s.frames[t])
                                then HandleIds(s.frames[t].old') else {})
    ensures var s' := After(s, run);
            ids <= s'.joined + (if t in s'.frames && HoldsTaken(s'.frames[t])
                                then HandleIds(s'.frames[t].old') else {})
    decreases |run|
  {
    if run != [] {
      TakenServersAreJoined(Apply(s, run[0]), run[1..], t, ids);
    }
  }

  /** A stop that took a handle has joined all of its servers by the time it returns. */
  lemma StopJoinsWhatItTook(s: State, t: nat, h: Handle, run: seq<Action>)
    requires Enabled(s, Take(t)) && s.frames[t].Stopping? && s.slot == Some(h)
    requires Legal(Apply(s, Take(t)), run) && t !in After(Apply(s, Take(t)), run).frames
    ensures HandleIds(h) <= After(Apply(s, Take(t)), run).joined
  {
    TakenServersAreJoined(Apply(s, Take(t)), run, t, HandleIds(h));
  }
}
