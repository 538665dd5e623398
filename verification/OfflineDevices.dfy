/**
 * Whose verdict an offline answer is. The cache knows documents but not devices, so the answer is the verdict
 * on the device of the last online check, whichever device asks.
 */
module OfflineDevices {
  import opened Wrappers
  import opened LicenseService
  import opened LicenseEvaluation
  import opened OfflineCache

  /** The decision is the verdict on a payload for one device key, and names no other device. */
  predicate DecidedFor(config: Config, d: Decision, basis: Basis, key: string) {
    && (d.allowed <==> Passes(config, basis.final, key, basis.checkedAt))
    && d.license == Some(basis.final.license)
    && (d.device.Some? ==> d.device == FindDevice(basis.final.license.devices, key))
  }

  lemma FreshIsDecided<S>(fuel: nat, config: Config, api: Api<S>, input: Input, sys: Sys<S>)
    requires var r := Check(fuel, config, api, input, sys); r.Some? && r.value.mode.Fresh? && r.value.mode.basis.Some?
    ensures var mode := Check(fuel, config, api, input, sys).value.mode;
            DecidedFor(config, mode.decision, mode.basis.value, DeviceKey(input))
  {
    var sys1 := if config.preferResolveActivation then Sys(api.resolve(sys.world, input).1, sys.cache) else sys;
    assert Check(fuel, config, api, input, sys) == CheckLegacy(fuel, config, api, input, sys1);
    var (status, w) := api.companyStatus(sys1.world, input.document);
    var sys2 := PutPayload(api, Sys(w, sys1.cache), input.document, status.value);
    AllowedIffPasses(fuel, config, api, status.value, input, false, sys2);
  }

  lemma {:induction false} LastOnlineIsDecided<S>(config: Config, api: Api<S>, time: S -> int, history: seq<Past<S>>, document: string)
    requires IsHistory(config, api, time, history)
    ensures var online := LastOnline(history, document);
            online.Some? && online.value.basis.Some? ==>
              DecidedFor(config, online.value.decision, online.value.basis.value, DeviceKey(online.value.input))
  {
    if history != [] {
      var last := history[|history| - 1];
      LastOnlineIsDecided(config, api, time, history[..|history| - 1], document);
      if last.checked.mode.Fresh? && last.checked.mode.basis.Some? {
        FreshIsDecided(last.fuel, config, api, last.input, last.before);
      }
    }
  }

  /** The last check of a history fell back on the cache and got the answer `d`, which repeats `online`. */
  ghost predicate Fallback<S>(history: seq<Past<S>>, d: Decision, online: Answered) {
    && history != []
    && var last := history[|history| - 1];
       && last.checked.mode.FromCache? && last.checked.result == Ok(d)
       && LastOnline(history[..|history| - 1], last.input.document) == Some(online)
  }

  function AskingKey<S>(history: seq<Past<S>>): string
    requires history != []
  {
    DeviceKey(history[|history| - 1].input)
  }

  /**
   * An offline answer is the verdict for the device key of the last online check. A device it names is the
   * asking one exactly when that check asked with the same key.
   */
  lemma OfflineAnswerIsOnlineDevices<S(!new)>(config: Config, api: Api<S>, time: S -> int, history: seq<Past<S>>,
                                              d: Decision, online: Answered)
    requires MonotoneClock(api, time) && IsHistory(config, api, time, history)
    requires Fallback(history, d, online) && online.basis.Some?
    ensures DecidedFor(config, d, online.basis.value, DeviceKey(online.input))
    ensures d.device.Some? ==>
              (Or(d.device.value.key, "") == AskingKey(history) <==> DeviceKey(online.input) == AskingKey(history))
  {
    OfflineAnswers(config, api, time, history);
    LastOnlineIsDecided(config, api, time, history[..|history| - 1], history[|history| - 1].input.document);
  }

  // When the verdict is right for the device that asks

  /** Two device keys always get the same verdict: they are the same, or no check looks at devices. */
  predicate SharesVerdict(config: Config, a: string, b: string) {
    a == b || (!config.blockOnDeviceMissing && !config.blockOnDeviceBlocked)
  }

  /** Whether the company status, and so a verdict on a device, is ever asked for. */
  predicate AsksStatus(config: Config) {
    !config.preferResolveActivation || config.allowLegacyFallback
  }

  /** A sound licence that passes the enabled checks for key `a` but not for key `b`. */
  function PayloadAgainst(config: Config, a: string, b: string): Payload {
    var device := if config.blockOnDeviceMissing then Device(None, Some(a), None, false) else Device(None, Some(b), None, true);
    Payload(1, None, License(None, false, true, None, [device]))
  }

  lemma PayloadSeparates(config: Config, a: string, b: string, now: int)
    requires !SharesVerdict(config, a, b)
    ensures Passes(config, PayloadAgainst(config, a, b), a, now) && !Passes(config, PayloadAgainst(config, a, b), b, now)
  {
    var devices := PayloadAgainst(config, a, b).license.devices;
    assert devices[1..] == [];
  }

  /** Same verdict on every payload at every time, exactly under that condition. */
  lemma SharesVerdictIff(config: Config, a: string, b: string)
    ensures SharesVerdict(config, a, b) <==>
            forall payload: Payload, now: int :: Passes(config, payload, a, now) <==> Passes(config, payload, b, now)
  {
    if !SharesVerdict(config, a, b) {
      PayloadSeparates(config, a, b, 0);
      assert Passes(config, PayloadAgainst(config, a, b), a, 0);
    }
  }

  // Two devices and one outage

  /** A server that answers one status while it is up; its world is whether it is. */
  function Outage(status: Payload): Api<bool> {
    Api((up, _) => (Err("no activation"), up), (up, _) => (if up then Ok(status) else Err("down"), up),
        (up, _) => (None, up), (up, _) => (None, up), (up, _, _) => (None, up), up => (0, up))
  }

  function NoTime(up: bool): int {
    0
  }

  /** A device that asks with its key and registers nothing. */
  function Asking(document: string, key: string): Input {
    Input(document, Some(key), None, None, Some(false), Some(false), Some(false))
  }

  lemma OutageIsMonotone(status: Payload)
    ensures MonotoneClock(Outage(status), NoTime)
  {
  }

  /** The first device asks while the server is up. */
  lemma OnlineCheck(config: Config, document: string, a: string, payload: Payload) returns (p: Past<bool>)
    requires AsksStatus(config) && document != "" && payload.status != 0
    requires !payload.license.blocked && payload.license.expiresAt.None?
    ensures p.fuel == 1 && p.input == Asking(document, a) && p.before == Sys(true, map[])
    ensures Check(p.fuel, config, Outage(payload), p.input, p.before) == Some(p.checked)
    ensures p.checked.mode.Fresh? && p.checked.mode.basis == Some(Basis(payload, 0)) && p.checked.mode.at == 0
    ensures p.checked.sys.cache == map[document := Entry(0, Some(p.checked.mode.decision), None)]
  {
    var api, input := Outage(payload), Asking(document, a);
    var sys := PutPayload(api, Sys(true, map[]), document, payload);
    assert !MayRegister(config, input);
    NoRegistrationNoReentry(1, config, api, payload, input, false, sys);
    var e := Evaluate(1, config, api, payload, input, false, sys).value;
    assert e.checkedAt == 0 && e.sys.cache == sys.cache && e.sys.world;
    var (t, after) := PutDecision(api, e.sys, document, e.decision);
    assert after.cache == map[document := Entry(0, Some(e.decision), None)];
    p := Past(1, input, Sys(true, map[]), Checked(Ok(e.decision), after, Fresh(e.decision, t, Some(Basis(payload, 0)))));
    assert CheckLegacy(1, config, api, input, Sys(true, map[])) == Some(p.checked);
  }

  /** The second device asks while the server is down. */
  lemma OfflineCheck(config: Config, document: string, b: string, payload: Payload, d: Decision) returns (p: Past<bool>)
    requires AsksStatus(config) && document != "" && config.offlineMaxAgeDays >= 0
    ensures p.input == Asking(document, b) && p.before == Sys(false, map[document := Entry(0, Some(d), None)])
    ensures Check(p.fuel, config, Outage(payload), p.input, p.before) == Some(p.checked)
    ensures p.checked.mode.FromCache? && p.checked.result == Ok(AsOffline(d))
  {
    var api, input, sys := Outage(payload), Asking(document, b), Sys(false, map[document := Entry(0, Some(d), None)]);
    p := Past(1, input, sys, Checked(Ok(AsOffline(d)), sys, FromCache(Some(0))));
    assert TryOfflineCache(1, config, api, document, "down", sys) == Some(p.checked);
    assert CheckLegacy(1, config, api, input, sys) == Some(p.checked);
  }

  /**
   * Whenever the verdict can depend on the device, one device is allowed online, the server goes down, and
   * another device, which fails the checks on the same payload, is answered that it is allowed.
   */
  lemma OtherDevicesVerdict(config: Config, document: string, a: string, b: string)
    returns (payload: Payload, history: seq<Past<bool>>, d: Decision, online: Answered)
    requires AsksStatus(config) && document != "" && config.offlineMaxAgeDays >= 0
    requires !SharesVerdict(config, a, b)
    ensures MonotoneClock(Outage(payload), NoTime) && IsHistory(config, Outage(payload), NoTime, history)
    ensures Fallback(history, d, online) && online.basis.Some?
    ensures AskingKey(history) == b && DeviceKey(online.input) == a
    ensures d.allowed && !Passes(config, online.basis.value.final, b, online.basis.value.checkedAt)
    ensures config.blockOnDeviceMissing ==> d.device.Some? && Or(d.device.value.key, "") == a
  {
    payload := PayloadAgainst(config, a, b);
    PayloadSeparates(config, a, b, 0);
    OutageIsMonotone(payload);
    var first := OnlineCheck(config, document, a, payload);
    var decision := first.checked.mode.decision;
    var second := OfflineCheck(config, document, b, payload, decision);
    history, d := [first, second], AsOffline(decision);
    online := Answered(first.input, decision, 0, first.checked.mode.basis);
    TwoChecks(config, payload, first, second);
    OfflineAnswerIsOnlineDevices(config, Outage(payload), NoTime, history, d, online);
  }

  lemma TwoChecks(config: Config, payload: Payload, first: Past<bool>, second: Past<bool>)
    requires Check(first.fuel, config, Outage(payload), first.input, first.before) == Some(first.checked)
    requires Check(second.fuel, config, Outage(payload), second.input, second.before) == Some(second.checked)
    requires first.before.cache == map[] && second.before.cache == first.checked.sys.cache
    requires first.checked.mode.Fresh? && first.input.document == second.input.document
    ensures IsHistory(config, Outage(payload), NoTime, [first, second])
    ensures LastOnline([first, second][..1], second.input.document)
            == Some(Answered(first.input, first.checked.mode.decision, first.checked.mode.at, first.checked.mode.basis))
  {
    var history := [first, second];
    assert history[..1] == [first] && [first][..0] == [];
  }

  // The exact condition

  /** Every offline answer, in every history of every server, is the right verdict for the device that asks. */
  ghost predicate AlwaysRight(config: Config, a: string, b: string) {
    forall api: Api<bool>, time: bool -> int, history: seq<Past<bool>>, d: Decision, online: Answered ::
      MonotoneClock(api, time) && IsHistory(config, api, time, history) && Fallback(history, d, online)
      && online.basis.Some? && DeviceKey(online.input) == a && AskingKey(history) == b
      ==> (d.allowed <==> Passes(config, online.basis.value.final, b, online.basis.value.checkedAt))
  }

  /** With a negative limit, or without ever asking for a status, there is no such answer. */
  predicate NeverAnswers(config: Config) {
    config.offlineMaxAgeDays < 0 || !AsksStatus(config)
  }

  lemma {:induction false} NoStatusNoBasis<S>(config: Config, api: Api<S>, time: S -> int, history: seq<Past<S>>, document: string)
    requires IsHistory(config, api, time, history) && !AsksStatus(config)
    ensures var online := LastOnline(history, document); online.Some? ==> online.value.basis.None?
  {
    if history != [] {
      NoStatusNoBasis(config, api, time, history[..|history| - 1], document);
    }
  }

  /**
   * Offline answers are the right verdict for the asking device in every history exactly when the two keys
   * always share their verdict or no such answer is ever given.
   */
  lemma AlwaysRightIff(config: Config, a: string, b: string)
    ensures AlwaysRight(config, a, b) <==> SharesVerdict(config, a, b) || NeverAnswers(config)
  {
    if SharesVerdict(config, a, b) || NeverAnswers(config) {
      forall api: Api<bool>, time: bool -> int, history: seq<Past<bool>>, d: Decision, online: Answered
        | MonotoneClock(api, time) && IsHistory(config, api, time, history) && Fallback(history, d, online)
          && online.basis.Some? && DeviceKey(online.input) == a && AskingKey(history) == b
        ensures d.allowed <==> Passes(config, online.basis.value.final, b, online.basis.value.checkedAt)
      {
        RightForAsking(config, api, time, history, d, online);
      }
    } else {
      var payload, history, d, online := OtherDevicesVerdict(config, "1", a, b);
    }
  }

  /** One history: the offline answer is right for the asking device. */
  lemma RightForAsking<S(!new)>(config: Config, api: Api<S>, time: S -> int, history: seq<Past<S>>, d: Decision, online: Answered)
    requires MonotoneClock(api, time) && IsHistory(config, api, time, history)
    requires Fallback(history, d, online) && online.basis.Some?
    requires SharesVerdict(config, DeviceKey(online.input), AskingKey(history)) || NeverAnswers(config)
    ensures d.allowed <==> Passes(config, online.basis.value.final, AskingKey(history), online.basis.value.checkedAt)
  {
    OfflineAnswers(config, api, time, history);
    if !AsksStatus(config) {
      NoStatusNoBasis(config, api, time, history[..|history| - 1], history[|history| - 1].input.document);
    } else if config.offlineMaxAgeDays >= 0 {
      OfflineAnswerIsOnlineDevices(config, api, time, history, d, online);
      SharesVerdictIff(config, DeviceKey(online.input), AskingKey(history));
    }
  }
}
