/** Whole histories of license checks: what an answer from the offline cache is, and until when it is given. */
module OfflineCache {
  import opened Wrappers
  import opened LicenseService
  import opened LicenseEvaluation

  // The clock

  predicate Later<S>(time: S -> int, before: S, after: S) {
    time(before) <= time(after)
  }

  /** Every reading lies between the times of the worlds before and after it; no call moves time back. */
  ghost predicate MonotoneClock<S(!new)>(api: Api<S>, time: S -> int) {
    && (forall s {:trigger api.now(s)} :: time(s) <= api.now(s).0 <= time(api.now(s).1))
    && (forall s, input :: Later(time, s, api.resolve(s, input).1))
    && (forall s, document :: Later(time, s, api.companyStatus(s, document).1))
    && (forall s, input :: Later(time, s, api.registerCompany(s, input).1))
    && (forall s, input :: Later(time, s, api.registerDevice(s, input).1))
    && (forall s, id, input :: Later(time, s, api.renameDevice(s, id, input).1))
  }

  /** What one finished piece of work leaves: no earlier time, and no entry of another document touched. */
  ghost predicate Effect<S>(time: S -> int, document: string, before: Sys<S>, after: Sys<S>) {
    Later(time, before.world, after.world) && after.cache - {document} == before.cache - {document}
  }

  lemma RetryEffect<S(!new)>(api: Api<S>, time: S -> int, sys: Sys<S>, document: string, answer: (Option<string>, S),
                             step: string, code: string)
    requires MonotoneClock(api, time) && Later(time, sys.world, answer.1)
    ensures Effect(time, document, sys, AfterRegistration(api, sys, document, answer, step, code).sys)
  {
    if answer.0.None? {
      var (status, w) := api.companyStatus(answer.1, document);
      assert Later(time, answer.1, w);
    }
  }

  lemma FinishEffect<S(!new)>(config: Config, api: Api<S>, time: S -> int, payload: Payload, input: Input, offline: bool,
                              diagnostics: seq<Diagnostic>, sys: Sys<S>)
    requires MonotoneClock(api, time)
    ensures Effect(time, input.document, sys, Finish(config, api, payload, input, offline, diagnostics, sys).1)
  {
    var device := FindDevice(payload.license.devices, DeviceKey(input));
    var w := Rename(config, api, device, input, diagnostics, sys.world).1;
    assert Later(time, sys.world, w) by {
      if device.Some? && device.value.id.Some? {
        assert Later(time, sys.world, api.renameDevice(sys.world, device.value.id.value, input).1);
      }
    }
  }

  lemma {:induction false} EvaluateEffect<S(!new)>(
      fuel: nat, config: Config, api: Api<S>, time: S -> int, payload: Payload, input: Input, offline: bool, sys: Sys<S>)
    requires MonotoneClock(api, time)
    requires Evaluate(fuel, config, api, payload, input, offline, sys).Some?
    ensures Effect(time, input.document, sys, Evaluate(fuel, config, api, payload, input, offline, sys).value.sys)
    decreases fuel, 1
  {
    var e := Evaluate(fuel, config, api, payload, input, offline, sys).value;
    if payload.status == 0 {
      var answer := api.registerCompany(sys.world, input);
      assert Later(time, sys.world, answer.1);
      RetryEffect(api, time, sys, input.document, answer, "register_company", "COMPANY_AUTO_CREATE_FAILED");
      var retry := TryCompany(api, sys, input);
      if Or(input.allowCompanyCreate, config.autoRegisterCompany) && retry.Again? {
        EvaluateEffect(fuel - 1, config, api, time, retry.payload, input, offline, retry.sys);
      }
    } else if payload.license.blocked && config.blockOnCompanyBlocked {
      assert e.sys == sys;
    } else {
      var (t, sys1) := ReadForExpiry(api, sys, payload.license);
      if Expired(payload.license, t) && config.blockOnExpired {
        assert e.sys == sys1;
      } else {
        DeviceEffect(fuel, config, api, time, payload, input, offline, t, sys1);
      }
    }
  }

  lemma {:induction false} DeviceEffect<S(!new)>(
      fuel: nat, config: Config, api: Api<S>, time: S -> int, payload: Payload, input: Input, offline: bool, t: int,
      sys: Sys<S>)
    requires MonotoneClock(api, time) && fuel > 0
    requires DeviceOutcome(fuel, config, api, payload, input, offline, t, sys).Some?
    ensures Effect(time, input.document, sys, DeviceOutcome(fuel, config, api, payload, input, offline, t, sys).value.sys)
    decreases fuel, 0
  {
    if FindDevice(payload.license.devices, DeviceKey(input)).None?
       && Or(input.allowDeviceCreate, config.autoRegisterDevice) {
      var answer := api.registerDevice(sys.world, input);
      assert Later(time, sys.world, answer.1);
      RetryEffect(api, time, sys, input.document, answer, "register_device", "DEVICE_AUTO_CREATE_FAILED");
      match TryDevice(api, sys, input)
      case Again(p, sys') => EvaluateEffect(fuel - 1, config, api, time, p, input, offline, sys');
      case Stay(d, sys') => FinishEffect(config, api, time, payload, input, offline, d, sys');
    } else {
      FinishEffect(config, api, time, payload, input, offline, [], sys);
    }
  }

  // One check

  /** Only decisions are ever at rest in the cache: a payload stands there just while a check is under way. */
  predicate Settled(cache: Cache) {
    forall document | document in cache :: cache[document].decision.Some? && cache[document].payload.None?
  }

  /** What a check does to the cache, by how it got its result. */
  ghost predicate CheckEffect<S>(time: S -> int, document: string, before: Sys<S>, checked: Checked<S>) {
    && Later(time, before.world, checked.sys.world)
    && match checked.mode
       case Fresh(d, at, _) =>
         && checked.result == Ok(d)
         && time(before.world) <= at <= time(checked.sys.world)
         && checked.sys.cache == before.cache[document := Entry(at, Some(d), None)]
       case _ => checked.sys.cache == before.cache
  }

  lemma PutEffect<S(!new)>(api: Api<S>, time: S -> int, document: string, before: Sys<S>, between: Sys<S>, decision: Decision)
    requires MonotoneClock(api, time) && Effect(time, document, before, between)
    ensures var (at, after) := PutDecision(api, between, document, decision);
            && time(before.world) <= at <= time(after.world)
            && Later(time, before.world, after.world)
            && after.cache == before.cache[document := Entry(at, Some(decision), None)]
  {
    var (at, after) := PutDecision(api, between, document, decision);
    var entry := Entry(at, Some(decision), None);
    assert between.cache[document := entry] == (between.cache - {document})[document := entry];
    assert before.cache[document := entry] == (before.cache - {document})[document := entry];
  }

  lemma OfflineEffect<S(!new)>(fuel: nat, config: Config, api: Api<S>, time: S -> int, document: string, err: string,
                               sys: Sys<S>)
    requires MonotoneClock(api, time) && Settled(sys.cache)
    ensures var r := TryOfflineCache(fuel, config, api, document, err, sys);
            r.Some? && r.value.mode.FromCache? && CheckEffect(time, document, sys, r.value)
  {
  }

  lemma CheckLegacyEffect<S(!new)>(fuel: nat, config: Config, api: Api<S>, time: S -> int, input: Input, sys: Sys<S>)
    requires MonotoneClock(api, time) && Settled(sys.cache)
    requires CheckLegacy(fuel, config, api, input, sys).Some?
    ensures CheckEffect(time, input.document, sys, CheckLegacy(fuel, config, api, input, sys).value)
  {
    var (status, w) := api.companyStatus(sys.world, input.document);
    var sys1 := Sys(w, sys.cache);
    assert Later(time, sys.world, w);
    match status
    case Err(err) => OfflineEffect(fuel, config, api, time, input.document, err, sys1);
    case Ok(payload) =>
      var sys2 := PutPayload(api, sys1, input.document, payload);
      assert Effect(time, input.document, sys1, sys2);
      EvaluateEffect(fuel, config, api, time, payload, input, false, sys2);
      var e := Evaluate(fuel, config, api, payload, input, false, sys2).value;
      PutEffect(api, time, input.document, sys1, e.sys, e.decision);
  }

  lemma CheckEffects<S(!new)>(fuel: nat, config: Config, api: Api<S>, time: S -> int, input: Input, sys: Sys<S>)
    requires MonotoneClock(api, time) && Settled(sys.cache)
    requires Check(fuel, config, api, input, sys).Some?
    ensures CheckEffect(time, input.document, sys, Check(fuel, config, api, input, sys).value)
  {
    if input.document != "" {
      if config.preferResolveActivation {
        var (resolved, w) := api.resolve(sys.world, input);
        var sys1 := Sys(w, sys.cache);
        assert Later(time, sys.world, w);
        match resolved
        case Ok(decision) => PutEffect(api, time, input.document, sys1, sys1, decision);
        case Err(err) =>
          if config.allowLegacyFallback {
            CheckLegacyEffect(fuel, config, api, time, input, sys1);
          } else {
            OfflineEffect(fuel, config, api, time, input.document, err, sys1);
          }
      } else {
        CheckLegacyEffect(fuel, config, api, time, input, sys);
      }
    }
  }

  // Histories

  /** One check that ran to its end, with the system it started from. */
  datatype Past<!S> = Past(fuel: nat, input: Input, before: Sys<S>, checked: Checked<S>)

  /** Checks one after the other on one cache that was empty at first; in between, time passes and servers change. */
  ghost predicate IsHistory<S>(config: Config, api: Api<S>, time: S -> int, history: seq<Past<S>>) {
    history != [] ==>
      var last := history[|history| - 1];
      var earlier := history[..|history| - 1];
      && IsHistory(config, api, time, earlier)
      && Check(last.fuel, config, api, last.input, last.before) == Some(last.checked)
      && last.before.cache == CacheAfter(earlier)
      && (earlier != [] ==> Later(time, earlier[|earlier| - 1].checked.sys.world, last.before.world))
  }

  function CacheAfter<S>(history: seq<Past<S>>): Cache {
    if history == [] then map[] else history[|history| - 1].checked.sys.cache
  }

  /** A check that was answered online: its input, its decision and basis, and when that was stored. */
  datatype Answered = Answered(input: Input, decision: Decision, at: int, basis: Option<Basis>)

  /** The last check of a document that was answered online. */
  function LastOnline<S>(history: seq<Past<S>>, document: string): Option<Answered> {
    if history == [] then None
    else
      var last := history[|history| - 1];
      var mode := last.checked.mode;
      if last.input.document == document && mode.Fresh? then
        Some(Answered(last.input, mode.decision, mode.at, mode.basis))
      else LastOnline(history[..|history| - 1], document)
  }

  /** The cache holds, for every document, the last online decision with its time and nothing else. */
  ghost predicate CacheIsLastOnline<S>(time: S -> int, history: seq<Past<S>>) {
    && Settled(CacheAfter(history))
    && (forall document: string :: document in CacheAfter(history) <==> LastOnline(history, document).Some?)
    && (forall document: string | document in CacheAfter(history) ::
          var online := LastOnline(history, document).value;
          && CacheAfter(history)[document] == Entry(online.at, Some(online.decision), None)
          && online.at <= time(history[|history| - 1].checked.sys.world))
  }

  lemma {:induction false} CacheHoldsLastOnline<S(!new)>(config: Config, api: Api<S>, time: S -> int, history: seq<Past<S>>)
    requires MonotoneClock(api, time) && IsHistory(config, api, time, history)
    ensures CacheIsLastOnline(time, history)
  {
    if history != [] {
      var last := history[|history| - 1];
      var earlier := history[..|history| - 1];
      CacheHoldsLastOnline(config, api, time, earlier);
      CheckEffects(last.fuel, config, api, time, last.input, last.before);
    }
  }

  /** How an offline answer reads against the decision it repeats. */
  predicate Repeats(answer: Decision, original: Decision) {
    && answer.usedOfflineCache
    && answer.source == "offline"
    && answer.reasonCode == Some(Or(original.reasonCode, USING_CACHE))
    && answer.(usedOfflineCache := original.usedOfflineCache, source := original.source,
               reasonCode := original.reasonCode) == original
  }

  /**
   * In every history, a check that fell back on the cache repeats the last online decision for its document
   * exactly when fewer than offlineMaxAgeDays + 1 full days have passed since that decision was stored, and
   * fails otherwise. Offline answers in between do not matter, since LastOnline skips them.
   */
  lemma OfflineAnswers<S(!new)>(config: Config, api: Api<S>, time: S -> int, history: seq<Past<S>>)
    requires MonotoneClock(api, time) && IsHistory(config, api, time, history)
    requires history != [] && history[|history| - 1].checked.mode.FromCache?
    ensures var last := history[|history| - 1];
            var result := last.checked.result;
            match LastOnline(history[..|history| - 1], last.input.document)
            case None => result == Err(NoCache)
            case Some(online) =>
              && last.checked.mode.readAt.Some?
              && var elapsed := last.checked.mode.readAt.value - online.at;
                 && 0 <= elapsed
                 && (elapsed < (config.offlineMaxAgeDays + 1) * DAY ==> result.Ok? && Repeats(result.value, online.decision))
                 && (elapsed >= (config.offlineMaxAgeDays + 1) * DAY ==> result == Err(CacheExpired))
  {
    var last := history[|history| - 1];
    var earlier := history[..|history| - 1];
    CacheHoldsLastOnline(config, api, time, earlier);
    var read := CacheRead(last.fuel, config, api, time, last.input, last.before);
    var err :| TryOfflineCache(last.fuel, config, api, last.input.document, err, read) == Some(last.checked);
    var online := LastOnline(earlier, last.input.document);
    assert online.Some? ==> online.value.at <= time(read.world);
    CacheAnswers(last.fuel, config, api, time, last.input.document, err, read, online);
  }

  /** What a cache entry of an online decision answers. */
  lemma CacheAnswers<S(!new)>(fuel: nat, config: Config, api: Api<S>, time: S -> int, document: string, err: string,
                              sys: Sys<S>, online: Option<Answered>)
    requires MonotoneClock(api, time)
    requires online.None? ==> document !in sys.cache
    requires online.Some? ==>
               && document in sys.cache
               && sys.cache[document] == Entry(online.value.at, Some(online.value.decision), None)
               && online.value.at <= time(sys.world)
    ensures TryOfflineCache(fuel, config, api, document, err, sys).Some?
    ensures var checked := TryOfflineCache(fuel, config, api, document, err, sys).value;
            match online
            case None => checked.result == Err(NoCache)
            case Some(Answered(_, decision, at, _)) =>
              && checked.mode.FromCache? && checked.mode.readAt.Some?
              && var elapsed := checked.mode.readAt.value - at;
                 && 0 <= elapsed
                 && (elapsed < (config.offlineMaxAgeDays + 1) * DAY ==>
                       checked.result.Ok? && Repeats(checked.result.value, decision))
                 && (elapsed >= (config.offlineMaxAgeDays + 1) * DAY ==> checked.result == Err(CacheExpired))
  {
    var elapsed := api.now(sys.world).0 - (if online.Some? then online.value.at else 0);
    if online.Some? {
      WholeDaysBelow(elapsed, config.offlineMaxAgeDays);
    }
  }

  lemma WholeDaysBelow(elapsed: int, days: int)
    requires elapsed >= 0
    ensures WholeDays(elapsed) > days <==> elapsed >= (days + 1) * DAY
  {
  }

  /** The system in which a check that fell back on the cache read it: only the world has moved on. */
  lemma CacheRead<S(!new)>(fuel: nat, config: Config, api: Api<S>, time: S -> int, input: Input, sys: Sys<S>)
    returns (read: Sys<S>)
    requires MonotoneClock(api, time)
    requires var r := Check(fuel, config, api, input, sys); r.Some? && r.value.mode.FromCache?
    ensures Later(time, sys.world, read.world) && read.cache == sys.cache
    ensures exists err :: TryOfflineCache(fuel, config, api, input.document, err, read) == Check(fuel, config, api, input, sys)
  {
    read := sys;
    if config.preferResolveActivation {
      var (resolved, w) := api.resolve(sys.world, input);
      assert Later(time, sys.world, w);
      read := Sys(w, sys.cache);
      if !config.allowLegacyFallback {
        assert TryOfflineCache(fuel, config, api, input.document, resolved.error, read) == Check(fuel, config, api, input, sys);
        return;
      }
    }
    var (status, w) := api.companyStatus(read.world, input.document);
    assert Later(time, read.world, w);
    read := Sys(w, sys.cache);
    assert TryOfflineCache(fuel, config, api, input.document, status.error, read) == Check(fuel, config, api, input, sys);
  }

  // Entries that hold a payload

  /** What re-entries leave in the cache: nothing new, or the last payload under a new time. */
  ghost predicate Restamped<S>(time: S -> int, document: string, payload: Payload, before: Sys<S>, e: Evaluation<S>) {
    if e.reentries == 0 then e.final == payload && e.sys.cache == before.cache
    else
      && document in e.sys.cache
      && e.sys.cache[document].decision.None? && e.sys.cache[document].payload == Some(e.final)
      && time(before.world) <= e.sys.cache[document].cachedAt
  }

  lemma {:induction false} EvaluateRestamps<S(!new)>(
      fuel: nat, config: Config, api: Api<S>, time: S -> int, payload: Payload, input: Input, offline: bool, sys: Sys<S>)
    requires MonotoneClock(api, time)
    requires Evaluate(fuel, config, api, payload, input, offline, sys).Some?
    ensures Restamped(time, input.document, payload, sys, Evaluate(fuel, config, api, payload, input, offline, sys).value)
    decreases fuel, 2
  {
    if payload.status == 0 {
      if Or(input.allowCompanyCreate, config.autoRegisterCompany) && TryCompany(api, sys, input).Again? {
        RegisteredCompanyRestamps(fuel, config, api, time, payload, input, offline, sys);
      }
    } else if payload.license.blocked && config.blockOnCompanyBlocked {
    } else {
      var (t, sys1) := ReadForExpiry(api, sys, payload.license);
      if Expired(payload.license, t) && config.blockOnExpired {
      } else {
        DeviceRestamps(fuel, config, api, time, payload, input, offline, t, sys1);
      }
    }
  }

  lemma {:induction false} RegisteredCompanyRestamps<S(!new)>(
      fuel: nat, config: Config, api: Api<S>, time: S -> int, payload: Payload, input: Input, offline: bool, sys: Sys<S>)
    requires MonotoneClock(api, time) && fuel > 0 && TryCompany(api, sys, input).Again?
    requires var retry := TryCompany(api, sys, input);
             Evaluate(fuel - 1, config, api, retry.payload, input, offline, retry.sys).Some?
    ensures var retry := TryCompany(api, sys, input);
            var inner := Evaluate(fuel - 1, config, api, retry.payload, input, offline, retry.sys);
            Restamped(time, input.document, payload, sys, Deeper(inner, RegisterCompany).value)
    decreases fuel, 0
  {
    var answer := api.registerCompany(sys.world, input);
    assert Later(time, sys.world, answer.1);
    RegistrationStamps(api, time, sys, input, answer, "register_company", "COMPANY_AUTO_CREATE_FAILED");
    var retry := TryCompany(api, sys, input);
    EvaluateRestamps(fuel - 1, config, api, time, retry.payload, input, offline, retry.sys);
    var inner := Evaluate(fuel - 1, config, api, retry.payload, input, offline, retry.sys).value;
    DeeperRestamps(time, input.document, payload, sys, retry.payload, retry.sys, inner, RegisterCompany);
  }

  lemma {:induction false} DeviceRestamps<S(!new)>(
      fuel: nat, config: Config, api: Api<S>, time: S -> int, payload: Payload, input: Input, offline: bool, t: int,
      sys: Sys<S>)
    requires MonotoneClock(api, time) && fuel > 0
    requires DeviceOutcome(fuel, config, api, payload, input, offline, t, sys).Some?
    ensures Restamped(time, input.document, payload, sys, DeviceOutcome(fuel, config, api, payload, input, offline, t, sys).value)
    decreases fuel, 1
  {
    var retry := TryDevice(api, sys, input);
    if FindDevice(payload.license.devices, DeviceKey(input)).None?
       && Or(input.allowDeviceCreate, config.autoRegisterDevice) {
      if retry.Again? {
        RegisteredDeviceRestamps(fuel, config, api, time, payload, input, offline, sys);
      } else {
        FinishKeepsCache(config, api, payload, input, offline, retry.diagnostics, retry.sys);
      }
    } else {
      FinishKeepsCache(config, api, payload, input, offline, [], sys);
    }
  }

  lemma {:induction false} RegisteredDeviceRestamps<S(!new)>(
      fuel: nat, config: Config, api: Api<S>, time: S -> int, payload: Payload, input: Input, offline: bool, sys: Sys<S>)
    requires MonotoneClock(api, time) && fuel > 0 && TryDevice(api, sys, input).Again?
    requires var retry := TryDevice(api, sys, input);
             Evaluate(fuel - 1, config, api, retry.payload, input, offline, retry.sys).Some?
    ensures var retry := TryDevice(api, sys, input);
            var inner := Evaluate(fuel - 1, config, api, retry.payload, input, offline, retry.sys);
            Restamped(time, input.document, payload, sys, Deeper(inner, RegisterDevice).value)
    decreases fuel, 0
  {
    var answer := api.registerDevice(sys.world, input);
    assert Later(time, sys.world, answer.1);
    RegistrationStamps(api, time, sys, input, answer, "register_device", "DEVICE_AUTO_CREATE_FAILED");
    var retry := TryDevice(api, sys, input);
    EvaluateRestamps(fuel - 1, config, api, time, retry.payload, input, offline, retry.sys);
    var inner := Evaluate(fuel - 1, config, api, retry.payload, input, offline, retry.sys).value;
    DeeperRestamps(time, input.document, payload, sys, retry.payload, retry.sys, inner, RegisterDevice);
  }

  lemma FinishKeepsCache<S>(config: Config, api: Api<S>, payload: Payload, input: Input, offline: bool,
                            diagnostics: seq<Diagnostic>, sys: Sys<S>)
    ensures Finish(config, api, payload, input, offline, diagnostics, sys).1.cache == sys.cache
  {
  }

  lemma DeeperRestamps<S>(time: S -> int, document: string, payload: Payload, sys: Sys<S>, again: Payload, sys': Sys<S>,
                          inner: Evaluation<S>, call: Call)
    requires Later(time, sys.world, sys'.world) && document in sys'.cache
    requires sys'.cache[document].decision.None? && sys'.cache[document].payload == Some(again)
    requires time(sys.world) <= sys'.cache[document].cachedAt
    requires Restamped(time, document, again, sys', inner)
    ensures Restamped(time, document, payload, sys, Deeper(Some(inner), call).value)
  {
  }

  lemma RegistrationStamps<S(!new)>(api: Api<S>, time: S -> int, sys: Sys<S>, input: Input, answer: (Option<string>, S),
                                    step: string, code: string)
    requires MonotoneClock(api, time) && Later(time, sys.world, answer.1)
    ensures var retry := AfterRegistration(api, sys, input.document, answer, step, code);
            retry.Again? ==>
              && Later(time, sys.world, retry.sys.world) && input.document in retry.sys.cache
              && retry.sys.cache[input.document].decision.None?
              && retry.sys.cache[input.document].payload == Some(retry.payload)
              && time(sys.world) <= retry.sys.cache[input.document].cachedAt
  {
    var (status, w) := api.companyStatus(answer.1, input.document);
    assert Later(time, answer.1, w);
  }

  /**
   * An answer from an entry that holds a payload is a verdict for the empty device key. It leaves the cache as
   * it is when nothing was registered, and otherwise stores the new payload under a time after this reading,
   * which moves the deadline.
   */
  lemma PayloadEntryAnswers<S(!new)>(fuel: nat, config: Config, api: Api<S>, time: S -> int, document: string, err: string,
                                     sys: Sys<S>, payload: Payload)
    requires MonotoneClock(api, time)
    requires document in sys.cache && sys.cache[document].decision.None? && sys.cache[document].payload == Some(payload)
    requires var r := TryOfflineCache(fuel, config, api, document, err, sys); r.Some? && r.value.result.Ok?
    ensures var (readAt, world) := api.now(sys.world);
            var read := Sys(world, sys.cache);
            var r := Evaluate(fuel, config, api, payload, BareInput(document), true, read);
            && r.Some?
            && var e, checked := r.value, TryOfflineCache(fuel, config, api, document, err, sys).value;
               var d := checked.result.value;
               && checked.sys == e.sys && readAt - sys.cache[document].cachedAt < (config.offlineMaxAgeDays + 1) * DAY
               && (d.allowed <==> Passes(config, e.final, "", e.checkedAt))
               && d.usedOfflineCache && d.source == "offline" && d.reasonCode == Some(USING_CACHE)
               && (e.reentries == 0 ==> e.final == payload && checked.sys.cache == sys.cache)
               && (e.reentries > 0 ==>
                     && document in checked.sys.cache && checked.sys.cache[document].payload == Some(e.final)
                     && checked.sys.cache[document].cachedAt >= readAt)
  {
    var (readAt, world) := api.now(sys.world);
    var read := Sys(world, sys.cache);
    AllowedIffPasses(fuel, config, api, payload, BareInput(document), true, read);
    EvaluateRestamps(fuel, config, api, time, payload, BareInput(document), true, read);
    DaysBelow(readAt - sys.cache[document].cachedAt, config.offlineMaxAgeDays);
  }

  /** The whole-day test lets a duration pass only below the limit plus one day. */
  lemma DaysBelow(duration: int, days: int)
    requires WholeDays(duration) <= days
    ensures duration < (days + 1) * DAY
  {
    if duration >= 0 {
      WholeDaysBelow(duration, days);
    }
  }
}
