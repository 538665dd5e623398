/**
 * The start and stop routines as the source writes them, over the slot of one service. Each locked region
 * or system call is followed by the protocol action it performs, so a whole call is a run of the protocol
 * of ServiceLifecycle. Probe, bind and spawn results are inputs.
 */
module ServiceRuntime {
  import opened Wrappers
  import opened Text
  import opened ServiceLifecycle

  /** What the system answers during one start: probes before and after the bind, the bind, the spawns. */
  datatype Answers = Answers(
    responds: bool, bound: Option<string>, respondsLate: bool, mirrorRuns: bool, mainRuns: bool)

  datatype Outcome = Disabled | Invalid | AlreadyRunning | Adopted | Unavailable | SpawnError | Started

  /** Step i of a recorded execution: its action was enabled and led to the next state. */
  ghost predicate StepAt(states: seq<State>, actions: seq<Action>, i: nat)
    requires |states| == |actions| + 1 && i < |actions|
  {
    Enabled(states[i], actions[i]) && states[i + 1] == Apply(states[i], actions[i])
  }

  ghost predicate IsExecution(states: seq<State>, actions: seq<Action>) {
    |states| == |actions| + 1 && forall i: nat | i < |actions| :: StepAt(states, actions, i)
  }

  /** A recorded execution is a run of the protocol. */
  lemma {:induction false} ExecutionIsRun(states: seq<State>, actions: seq<Action>)
    requires IsExecution(states, actions)
    ensures Legal(states[0], actions) && After(states[0], actions) == states[|actions|]
    decreases |actions|
  {
    if actions != [] {
      assert StepAt(states, actions, 0);
      forall i: nat | i < |actions| - 1 ensures StepAt(states[1..], actions[1..], i) {
        assert StepAt(states, actions, i + 1);
      }
      ExecutionIsRun(states[1..], actions[1..]);
    }
  }

  lemma ExecutionExtends(states: seq<State>, actions: seq<Action>, a: Action)
    requires IsExecution(states, actions) && Enabled(states[|actions|], a)
    ensures IsExecution(states + [Apply(states[|actions|], a)], actions + [a])
  {
    var states', actions' := states + [Apply(states[|actions|], a)], actions + [a];
    forall i: nat | i < |actions'| ensures StepAt(states', actions', i) {
      if i < |actions| {
        assert StepAt(states, actions, i);
      }
    }
  }

  /** A handle's threads in the order they are stopped and joined: the mirror, then the main thread. */
  function JoinOrder(h: Handle): seq<nat> {
    (if h.mirror.Some? then [h.mirror.value] else []) + (if h.main.Some? then [h.main.value] else [])
  }

  class Runtime {
    const kind: Kind
    var slot: Option<Handle>
    var next: nat
    /** In the order of joining. */
    var joined: seq<nat>
    var detached: set<nat>
    ghost var model: State
    ghost var states: seq<State>
    ghost var actions: seq<Action>

    /** The model is where the recorded actions lead from the initial state. */
    ghost predicate Traced()
      reads this
    {
      IsExecution(states, actions) && states[0] == Initial(kind) && states[|actions|] == model
    }

    /** The fields agree with the model. */
    ghost predicate Valid()
      reads this
    {
      Traced() && model.kind == kind && model.slot == slot && model.next == next
      && model.joined == (set id | id in joined) && model.detached == detached
    }

    constructor (kind: Kind)
      ensures Valid() && this.kind == kind && slot == None && model == Initial(kind)
    {
      this.kind := kind;
      slot, next, joined, detached := None, 0, [], {};
      model, states, actions := Initial(kind), [Initial(kind)], [];
    }

    ghost method Log(a: Action)
      requires Traced() && Enabled(model, a)
      modifies this`model, this`states, this`actions
      ensures Traced() && model == Apply(old(model), a)
    {
      ExecutionExtends(states, actions, a);
      model, states, actions := Apply(model, a), states + [Apply(model, a)], actions + [a];
    }

    /** Stops one thread of a handle that was taken: sends the message, then waits. */
    method StopThread(ghost t: nat, ghost f: Frame, thread: nat)
      requires Valid() && t in model.frames && model.frames[t] == f && HoldsTaken(f)
      requires NextToJoin(f.old') == Some(thread)
      modifies this
      ensures Valid() && slot == old(slot) && next == old(next) && detached == old(detached)
      ensures joined == old(joined) + [thread] && model.lock == old(model.lock)
      ensures model.frames == old(model.frames)[t := if f.old'.mirror.Some? then f.(old' := f.old'.(mirror := None))
                                                     else f.(old' := f.old'.(main := None))]
    {
      Log(Tell(t));
      joined := joined + [thread];
      Log(Join(t));
    }

    /** Stops the mirror, then the main thread, of a handle that was taken. */
    method JoinHandle(ghost t: nat, handle: Handle)
      requires Valid() && t in model.frames && HoldsTaken(model.frames[t])
      requires model.frames[t].old' == handle
      modifies this
      ensures Valid() && slot == old(slot) && next == old(next) && detached == old(detached)
      ensures joined == old(joined) + JoinOrder(handle) && model.lock == old(model.lock)
      ensures model.frames == match AfterJoins(old(model).frames[t])
                              case None => old(model.frames) - {t}
                              case Some(f) => old(model.frames)[t := f]
    {
      if handle.mirror.Some? {
        StopThread(t, model.frames[t], handle.mirror.value);
      }
      if handle.main.Some? {
        StopThread(t, model.frames[t], handle.main.value);
      }
      Log(Join(t));
    }

    /** Takes the handle out of the slot and joins what it held. */
    method TakeAndJoin(ghost t: nat)
      requires Valid() && Enabled(model, Take(t))
      modifies this
      ensures Valid() && slot == None && next == old(next) && detached == old(detached)
      ensures joined == old(joined) + (if old(slot).Some? then JoinOrder(old(slot).value) else [])
      ensures model.lock == old(model.lock)
      ensures old(model).frames[t].Stopping? ==> model.frames == old(model.frames) - {t}
      ensures old(model).frames[t].Clearing? ==>
                model.frames == old(model.frames)[t := Binding(old(model).frames[t].config)]
    {
      var handle := slot;
      slot := None;
      Log(Take(t));
      if handle.Some? {
        JoinHandle(t, handle.value);
      }
    }

    method StopBackground(ghost t: nat)
      requires Valid() && t !in model.frames
      modifies this
      ensures Valid() && slot == None && next == old(next) && detached == old(detached)
      ensures joined == old(joined) + (if old(slot).Some? then JoinOrder(old(slot).value) else [])
      ensures model.frames == old(model.frames) && model.lock == old(model.lock)
    {
      Log(AskStop(t));
      TakeAndJoin(t);
      assert model.frames == old(model.frames);
    }

    /** The optional mirror of a bound service: no mirror when it is not wanted or does not come up. */
    method SpawnMirror(ghost t: nat, ghost f: Frame, wanted: bool) returns (mirror: Option<nat>)
      requires Valid() && t in model.frames && model.frames[t] == f
      requires f.Spawning? && f.pending != [] && f.pending[0] == Mirror && f.mirror.None?
      requires wanted ==> WantsMirror(kind, f.config.host, f.host)
      modifies this
      ensures Valid() && Steady(old(model), old(slot), old(joined)) && detached == old(detached)
      ensures mirror.Some? <==> wanted
      ensures model.frames == old(model).frames[t := Spawned(f, f.main, mirror)]
    {
      if wanted {
        mirror, next := Some(next), next + 1;
        Log(Spawn(t));
      } else {
        mirror := None;
        Log(SkipMirror(t));
      }
    }

    method SpawnMain(ghost t: nat, ghost f: Frame) returns (main: nat)
      requires Valid() && t in model.frames && model.frames[t] == f
      requires f.Spawning? && f.pending != [] && f.pending[0] == Main
      modifies this
      ensures Valid() && Steady(old(model), old(slot), old(joined)) && detached == old(detached)
      ensures model.frames == old(model).frames[t := Spawned(f, Some(main), f.mirror)]
    {
      main, next := next, next + 1;
      Log(Spawn(t));
    }

    /** What spawning leaves alone: the slot, the lock and the joined threads. */
    ghost predicate Steady(before: State, slot': Option<Handle>, joined': seq<nat>)
      reads this
    {
      slot == slot' && joined == joined' && model.lock == before.lock
    }

    /** The webhook and WebSocket services, and the API, start the main thread before any mirror. */
    method SpawnMainFirst(ghost t: nat, config: Config, host: string, answers: Answers) returns (handle: Option<Handle>)
      requires Valid() && t in model.frames && kind != Web
      requires model.frames[t] == Spawning(config, host, None, None, SpawnOrder(kind))
      modifies this
      ensures Valid() && Steady(old(model), old(slot), old(joined)) && detached == old(detached)
      ensures handle.Some? <==> answers.mainRuns
      ensures handle.Some? ==> Complete(handle.value, config, host, answers)
      ensures model.frames == old(model).frames[t := if handle.Some? then Storing(handle.value) else Leaving]
    {
      if !answers.mainRuns {
        Log(SpawnFails(t));
        assert model.detached == old(model).detached + {};
        return None;
      }
      var main := SpawnMain(t, model.frames[t]);
      var mirror := None;
      if kind != Api {
        mirror := SpawnMirror(t, model.frames[t], WantsMirror(kind, config.host, host) && answers.mirrorRuns);
      }
      handle := Some(Handle(host, config.port, config.path, Some(main), mirror));
    }

    /** The main spawn of the web port fails: the mirror's handle, if there is one, is dropped. */
    method DropMirror(ghost t: nat, ghost f: Frame, mirror: Option<nat>)
      requires Valid() && t in model.frames && model.frames[t] == f
      requires f.Spawning? && f.main.None? && f.mirror == mirror
      modifies this
      ensures Valid() && Steady(old(model), old(slot), old(joined)) && next == old(next)
      ensures detached == old(detached) + (if mirror.Some? then {mirror.value} else {})
      ensures model.frames == old(model).frames[t := Leaving]
    {
      detached := detached + (if mirror.Some? then {mirror.value} else {});
      Log(SpawnFails(t));
    }

    /** The web port starts its mirror first; a failing main spawn drops the mirror's handle. */
    method SpawnMirrorFirst(ghost t: nat, config: Config, host: string, answers: Answers) returns (handle: Option<Handle>)
      requires Valid() && t in model.frames && kind == Web
      requires model.frames[t] == Spawning(config, host, None, None, SpawnOrder(kind))
      modifies this
      ensures Valid() && Steady(old(model), old(slot), old(joined))
      ensures handle.Some? <==> answers.mainRuns
      ensures handle.Some? ==> Complete(handle.value, config, host, answers)
      ensures detached != old(detached) ==> handle.None? && WantsMirror(kind, config.host, host) && answers.mirrorRuns
      ensures model.frames == old(model).frames[t := if handle.Some? then Storing(handle.value) else Leaving]
    {
      var wanted := WantsMirror(kind, config.host, host) && answers.mirrorRuns;
      ghost var f := model.frames[t];
      var mirror := SpawnMirror(t, f, wanted);
      ghost var g := Spawned(f, None, mirror);
      if !answers.mainRuns {
        DropMirror(t, g, mirror);
        return None;
      }
      var main := SpawnMain(t, g);
      handle := Some(Handle(host, config.port, config.path, Some(main), mirror));
    }

    /** A handle holding everything the answers allowed to start. */
    predicate Complete(h: Handle, config: Config, host: string, answers: Answers) {
      && h.host == host && h.port == config.port && h.path == config.path && h.main.Some?
      && (h.mirror.Some? <==> WantsMirror(kind, config.host, host) && answers.mirrorRuns)
    }

    ghost method Return(t: nat)
      requires Valid() && t in model.frames && model.frames[t].Leaving?
      modifies this`model, this`states, this`actions
      ensures Valid() && model.frames == old(model.frames) - {t} && model.lock == None
    {
      Log(Release(t));
    }

    /** Lock, checks and slot inspection; an early outcome has already released the lock. */
    method Begin(ghost t: nat, config: Config) returns (early: Option<Outcome>)
      requires Valid() && model.frames == map[] && model.lock == None
      requires kind == Api ==> config.valid
      modifies this`model, this`states, this`actions
      ensures Valid()
      ensures early.Some? ==> early.value in {Disabled, Invalid, AlreadyRunning}
      ensures early == Some(Invalid) <==> !config.valid && config.enabled && (kind == Webhook || kind == WebSocket)
      ensures early == Some(AlreadyRunning) ==> slot.Some? && Reuses(kind, slot.value, config)
      ensures early.Some? ==> model.frames == map[] && model.lock == None
      ensures early.None? ==> slot.Some? ==> !Reuses(kind, slot.value, config)
      ensures early.None? ==>
                model.frames == map[t := if slot.None? && (kind == Api || kind == Web) then Binding(config) else Clearing(config)]
    {
      Log(AskStart(t, config));
      Log(Acquire(t));
      Log(Decide(t));
      if kind != Api && !config.enabled {
        early := Some(Disabled);
      } else if (kind == Webhook || kind == WebSocket) && !config.valid {
        early := Some(Invalid);
      } else if slot.Some? && Reuses(kind, slot.value, config) {
        early := Some(AlreadyRunning);
      } else {
        early := None;
      }
      if early.Some? {
        Return(t);
      }
    }

    /** An existing instance answered: only the webhook and WebSocket services put it into the slot. */
    method AdoptExisting(ghost t: nat, config: Config)
      requires Valid() && model.frames == map[t := Binding(config)] && slot == None
      modifies this
      ensures Valid() && model.frames == map[] && model.lock == None
      ensures joined == old(joined) && detached == old(detached)
      ensures slot == if kind == Api || kind == Web then None
                      else Some(Handle(config.host, config.port, config.path, None, None))
    {
      Log(Adopt(t));
      if kind == Webhook || kind == WebSocket {
        slot := Some(Handle(config.host, config.port, config.path, None, None));
        Log(Store(t));
      }
      Return(t);
    }

    /** One start with no other call in flight. */
    method StartBackground(ghost t: nat, config: Config, answers: Answers) returns (outcome: Outcome)
      requires Valid() && model.frames == map[] && model.lock == None
      modifies this
      ensures Valid() && model.frames == map[] && model.lock == None
      ensures outcome == Invalid <==> !config.valid && (kind == Api || (config.enabled && kind != Web))
      ensures outcome == Started ==>
                slot.Some? && answers.bound.Some? && Complete(slot.value, config, answers.bound.value, answers)
      ensures outcome in {Disabled, Invalid, AlreadyRunning} ==> slot == old(slot) && joined == old(joined)
      ensures outcome == AlreadyRunning ==> slot.Some? && Reuses(kind, slot.value, config)
      ensures outcome == Adopted ==>
                slot == if kind == Api || kind == Web then None
                        else Some(Handle(config.host, config.port, config.path, None, None))
      ensures outcome in {Unavailable, SpawnError} ==> slot == None
      ensures outcome in {Adopted, Unavailable, SpawnError, Started} ==>
                joined == old(joined) + (if old(slot).Some? then JoinOrder(old(slot).value) else [])
      ensures detached != old(detached) ==> kind == Web && outcome == SpawnError
    {
      if kind == Api && !config.valid {
        return Invalid;
      }
      var early := Begin(t, config);
      if early.Some? {
        return early.value;
      }
      if kind == Webhook || kind == WebSocket || slot.Some? {
        TakeAndJoin(t);
      }
      assert model.frames == map[t := Binding(config)];
      if (kind == Webhook || kind == WebSocket) && !IsPublicBindHost(config.host) && answers.responds {
        AdoptExisting(t, config);
        return Adopted;
      }
      if answers.bound.None? {
        if answers.respondsLate {
          AdoptExisting(t, config);
          return Adopted;
        }
        Log(BindFails(t));
        Return(t);
        return Unavailable;
      }
      outcome := OpenAndStore(t, config, answers.bound.value, answers);
    }

    method OpenAndStore(ghost t: nat, config: Config, host: string, answers: Answers) returns (outcome: Outcome)
      requires Valid() && model.frames == map[t := Binding(config)] && slot == None
      modifies this
      ensures Valid() && model.frames == map[] && model.lock == None && joined == old(joined)
      ensures outcome == Started || outcome == SpawnError
      ensures outcome == Started ==> slot.Some? && Complete(slot.value, config, host, answers)
      ensures outcome == SpawnError ==> slot == None
      ensures detached != old(detached) ==> kind == Web && outcome == SpawnError
    {
      Log(Bind(t, host));
      var handle;
      if kind == Web {
        handle := SpawnMirrorFirst(t, config, host, answers);
      } else {
        handle := SpawnMainFirst(t, config, host, answers);
      }
      if handle.None? {
        Return(t);
        return SpawnError;
      }
      slot := handle;
      Log(Store(t));
      Return(t);
      outcome := Started;
    }
  }
}
