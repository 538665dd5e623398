/**
 * The evaluation that re-enters itself after a registration: when it ends, how often it calls the server,
 * and what its verdict means.
 */
module LicenseEvaluation {
  import opened Wrappers
  import opened LicenseService

  /** A server call never undoes a registration. */
  predicate Keeps<S>(hasCompany: S -> bool, hasDevice: S -> bool, before: S, after: S) {
    (hasCompany(before) ==> hasCompany(after)) && (hasDevice(before) ==> hasDevice(after))
  }

  predicate StatusShows<S>(api: Api<S>, input: Input, hasCompany: S -> bool, hasDevice: S -> bool, s: S) {
    var (status, s') := api.companyStatus(s, input.document);
    && Keeps(hasCompany, hasDevice, s, s')
    && (status.Ok? && hasCompany(s) ==> status.value.status != 0)
    && (status.Ok? && hasDevice(s) && status.value.status != 0 ==>
          FindDevice(status.value.license.devices, DeviceKey(input)).Some?)
  }

  predicate CompanyTakesEffect<S>(api: Api<S>, input: Input, hasCompany: S -> bool, hasDevice: S -> bool, s: S) {
    var (error, s') := api.registerCompany(s, input);
    Keeps(hasCompany, hasDevice, s, s') && (error.None? ==> hasCompany(s'))
  }

  predicate DeviceTakesEffect<S>(api: Api<S>, input: Input, hasCompany: S -> bool, hasDevice: S -> bool, s: S) {
    var (error, s') := api.registerDevice(s, input);
    Keeps(hasCompany, hasDevice, s, s') && (error.None? ==> hasDevice(s'))
  }

  /** Every successful registration is effective, durable, and shown by every later status answer. */
  ghost predicate EffectiveAndDurable<S(!new)>(api: Api<S>, input: Input, hasCompany: S -> bool, hasDevice: S -> bool) {
    && (forall s :: StatusShows(api, input, hasCompany, hasDevice, s))
    && (forall s :: CompanyTakesEffect(api, input, hasCompany, hasDevice, s))
    && (forall s :: DeviceTakesEffect(api, input, hasCompany, hasDevice, s))
    && (forall s :: Keeps(hasCompany, hasDevice, s, api.now(s).1))
  }

  /** The payload in hand shows the registrations already made. */
  predicate Shown<S>(input: Input, hasCompany: S -> bool, hasDevice: S -> bool, company: bool, device: bool,
                     payload: Payload, s: S)
  {
    && (company ==> payload.status != 0 && hasCompany(s))
    && (device ==> hasDevice(s)
                   && (payload.status != 0 ==> FindDevice(payload.license.devices, DeviceKey(input)).Some?))
  }

  /** One unit for each registration still to be made. */
  function Pending(company: bool, device: bool): nat {
    (if company then 0 else 1) + (if device then 0 else 1)
  }

  ghost predicate EndsWithin<S>(r: Option<Evaluation<S>>, company: bool, device: bool) {
    && r.Some?
    && r.value.reentries <= Pending(company, device)
    && multiset(r.value.calls)[RegisterCompany] <= (if company then 0 else 1)
    && multiset(r.value.calls)[RegisterDevice] <= (if device then 0 else 1)
  }

  lemma EndsWithDeeper<S>(r: Option<Evaluation<S>>, company: bool, device: bool, call: Call)
    requires call == RegisterCompany ==> !company && EndsWithin(r, true, device)
    requires call == RegisterDevice ==> !device && EndsWithin(r, company, true)
    ensures EndsWithin(Deeper(r, call), company, device)
  {
    assert multiset([call] + r.value.calls) == multiset([call]) + multiset(r.value.calls);
  }

  /** With a durable server every pending registration is used up by one re-entry. */
  lemma {:induction false} EvaluationEnds<S(!new)>(
      fuel: nat, config: Config, api: Api<S>, payload: Payload, input: Input, offline: bool, sys: Sys<S>,
      hasCompany: S -> bool, hasDevice: S -> bool, company: bool, device: bool)
    requires EffectiveAndDurable(api, input, hasCompany, hasDevice)
    requires Shown(input, hasCompany, hasDevice, company, device, payload, sys.world)
    requires fuel > Pending(company, device)
    ensures EndsWithin(Evaluate(fuel, config, api, payload, input, offline, sys), company, device)
    decreases fuel, 2
  {
    if payload.status == 0 {
      var retry := TryCompany(api, sys, input);
      if Or(input.allowCompanyCreate, config.autoRegisterCompany) && retry.Again? {
        RegisteredCompanyShows(api, input, hasCompany, hasDevice, company, device, payload, sys);
        EvaluationEnds(fuel - 1, config, api, retry.payload, input, offline, retry.sys, hasCompany, hasDevice, true, device);
        EndsWithDeeper(Evaluate(fuel - 1, config, api, retry.payload, input, offline, retry.sys), company, device, RegisterCompany);
      }
    } else {
      var (t, sys1) := ReadForExpiry(api, sys, payload.license);
      assert Keeps(hasCompany, hasDevice, sys.world, sys1.world);
      DeviceOutcomeEnds(fuel, config, api, payload, input, offline, t, sys1, hasCompany, hasDevice, company, device);
    }
  }

  lemma {:induction false} DeviceOutcomeEnds<S(!new)>(
      fuel: nat, config: Config, api: Api<S>, payload: Payload, input: Input, offline: bool, t: int, sys: Sys<S>,
      hasCompany: S -> bool, hasDevice: S -> bool, company: bool, device: bool)
    requires EffectiveAndDurable(api, input, hasCompany, hasDevice)
    requires payload.status != 0 && Shown(input, hasCompany, hasDevice, company, device, payload, sys.world)
    requires fuel > Pending(company, device)
    ensures EndsWithin(DeviceOutcome(fuel, config, api, payload, input, offline, t, sys), company, device)
    decreases fuel, 1
  {
    var retry := TryDevice(api, sys, input);
    if FindDevice(payload.license.devices, DeviceKey(input)).None?
       && Or(input.allowDeviceCreate, config.autoRegisterDevice) && retry.Again? {
      RegisteredDeviceShows(api, input, hasCompany, hasDevice, company, device, payload, sys);
      EvaluationEnds(fuel - 1, config, api, retry.payload, input, offline, retry.sys, hasCompany, hasDevice, company, true);
      EndsWithDeeper(Evaluate(fuel - 1, config, api, retry.payload, input, offline, retry.sys), company, device, RegisterDevice);
    }
  }

  lemma RegisteredCompanyShows<S(!new)>(api: Api<S>, input: Input, hasCompany: S -> bool, hasDevice: S -> bool,
                                        company: bool, device: bool, payload: Payload, sys: Sys<S>)
    requires EffectiveAndDurable(api, input, hasCompany, hasDevice)
    requires Shown(input, hasCompany, hasDevice, company, device, payload, sys.world)
    ensures TryCompany(api, sys, input).Again? ==>
              Shown(input, hasCompany, hasDevice, true, device, TryCompany(api, sys, input).payload,
                    TryCompany(api, sys, input).sys.world)
  {
    var (error, w) := api.registerCompany(sys.world, input);
    assert CompanyTakesEffect(api, input, hasCompany, hasDevice, sys.world);
    assert StatusShows(api, input, hasCompany, hasDevice, w);
    var w' := api.companyStatus(w, input.document).1;
    assert Keeps(hasCompany, hasDevice, w', api.now(w').1);
  }

  lemma RegisteredDeviceShows<S(!new)>(api: Api<S>, input: Input, hasCompany: S -> bool, hasDevice: S -> bool,
                                       company: bool, device: bool, payload: Payload, sys: Sys<S>)
    requires EffectiveAndDurable(api, input, hasCompany, hasDevice)
    requires Shown(input, hasCompany, hasDevice, company, device, payload, sys.world)
    ensures TryDevice(api, sys, input).Again? ==>
              Shown(input, hasCompany, hasDevice, company, true, TryDevice(api, sys, input).payload,
                    TryDevice(api, sys, input).sys.world)
  {
    var (error, w) := api.registerDevice(sys.world, input);
    assert DeviceTakesEffect(api, input, hasCompany, hasDevice, sys.world);
    assert StatusShows(api, input, hasCompany, hasDevice, w);
    var w' := api.companyStatus(w, input.document).1;
    assert Keeps(hasCompany, hasDevice, w', api.now(w').1);
  }

  /** Against a durable server the evaluation always ends, after at most two re-entries. */
  lemma AtMostTwoReentries<S(!new)>(
      fuel: nat, config: Config, api: Api<S>, payload: Payload, input: Input, offline: bool, sys: Sys<S>,
      hasCompany: S -> bool, hasDevice: S -> bool)
    requires EffectiveAndDurable(api, input, hasCompany, hasDevice)
    requires fuel >= 3
    ensures var r := Evaluate(fuel, config, api, payload, input, offline, sys);
            && r.Some?
            && r.value.reentries <= 2
            && multiset(r.value.calls)[RegisterCompany] <= 1
            && multiset(r.value.calls)[RegisterDevice] <= 1
            && r == Evaluate(3, config, api, payload, input, offline, sys)
  {
    EvaluationEnds(fuel, config, api, payload, input, offline, sys, hasCompany, hasDevice, false, false);
    EvaluationEnds(3, config, api, payload, input, offline, sys, hasCompany, hasDevice, false, false);
    MoreFuelSameResult(3, fuel, config, api, payload, input, offline, sys);
  }

  /** A finished evaluation does not depend on how many activations were allowed. */
  lemma {:induction false} MoreFuelSameResult<S>(
      less: nat, more: nat, config: Config, api: Api<S>, payload: Payload, input: Input, offline: bool, sys: Sys<S>)
    requires less <= more
    requires Evaluate(less, config, api, payload, input, offline, sys).Some?
    ensures Evaluate(more, config, api, payload, input, offline, sys)
            == Evaluate(less, config, api, payload, input, offline, sys)
  {
    if payload.status == 0 {
      var retry := TryCompany(api, sys, input);
      if Or(input.allowCompanyCreate, config.autoRegisterCompany) && retry.Again? {
        MoreFuelSameResult(less - 1, more - 1, config, api, retry.payload, input, offline, retry.sys);
      }
    } else if payload.license.blocked && config.blockOnCompanyBlocked {
    } else {
      var (t, sys1) := ReadForExpiry(api, sys, payload.license);
      var retry := TryDevice(api, sys1, input);
      if Expired(payload.license, t) && config.blockOnExpired {
      } else if FindDevice(payload.license.devices, DeviceKey(input)).None?
                && Or(input.allowDeviceCreate, config.autoRegisterDevice) && retry.Again? {
        MoreFuelSameResult(less - 1, more - 1, config, api, retry.payload, input, offline, retry.sys);
      }
    }
  }

  // What the verdict means

  /** The checks the configuration enables, on one payload, device key and instant. */
  predicate Passes(config: Config, payload: Payload, key: string, now: int) {
    var device := FindDevice(payload.license.devices, key);
    && payload.status != 0
    && (config.blockOnCompanyBlocked ==> !payload.license.blocked)
    && (config.blockOnExpired && payload.license.expiresAt.Some? ==> now <= payload.license.expiresAt.value)
    && (config.blockOnDeviceMissing ==> device.Some?)
    && (config.blockOnDeviceBlocked && device.Some? ==> !device.value.blocked)
  }

  ghost predicate SaysWhether<S>(config: Config, input: Input, offline: bool, e: Evaluation<S>) {
    && (e.decision.allowed <==> Passes(config, e.final, DeviceKey(input), e.checkedAt))
    && (e.decision.allowed <==> e.decision.decision == "allowed")
    && e.decision.license == Some(e.final.license)
    && e.decision.source == SourceLabel(offline) && e.decision.usedOfflineCache == offline
    && (e.decision.device.Some? ==> e.decision.device == FindDevice(e.final.license.devices, DeviceKey(input)))
  }

  /** An evaluation allows exactly when its final payload passes the enabled checks. */
  lemma {:induction false} AllowedIffPasses<S>(
      fuel: nat, config: Config, api: Api<S>, payload: Payload, input: Input, offline: bool, sys: Sys<S>)
    requires Evaluate(fuel, config, api, payload, input, offline, sys).Some?
    ensures SaysWhether(config, input, offline, Evaluate(fuel, config, api, payload, input, offline, sys).value)
    decreases fuel, 2
  {
    if payload.status == 0 {
      MissingSaysWhether(fuel, config, api, payload, input, offline, sys);
    } else {
      CompanySaysWhether(fuel, config, api, payload, input, offline, sys);
    }
  }

  lemma {:induction false} MissingSaysWhether<S>(
      fuel: nat, config: Config, api: Api<S>, payload: Payload, input: Input, offline: bool, sys: Sys<S>)
    requires Evaluate(fuel, config, api, payload, input, offline, sys).Some?
    requires payload.status == 0
    ensures SaysWhether(config, input, offline, Evaluate(fuel, config, api, payload, input, offline, sys).value)
    decreases fuel, 1
  {
    var retry := TryCompany(api, sys, input);
    if Or(input.allowCompanyCreate, config.autoRegisterCompany) && retry.Again? {
      AllowedIffPasses(fuel - 1, config, api, retry.payload, input, offline, retry.sys);
    }
  }

  lemma {:induction false} CompanySaysWhether<S>(
      fuel: nat, config: Config, api: Api<S>, payload: Payload, input: Input, offline: bool, sys: Sys<S>)
    requires Evaluate(fuel, config, api, payload, input, offline, sys).Some?
    requires payload.status != 0
    ensures SaysWhether(config, input, offline, Evaluate(fuel, config, api, payload, input, offline, sys).value)
    decreases fuel, 1
  {
    var e := Evaluate(fuel, config, api, payload, input, offline, sys).value;
    if payload.license.blocked && config.blockOnCompanyBlocked {
      assert e.final == payload;
    } else {
      var (t, sys1) := ReadForExpiry(api, sys, payload.license);
      if Expired(payload.license, t) && config.blockOnExpired {
        assert e.final == payload && e.checkedAt == t;
      } else {
        DeviceSaysWhether(fuel, config, api, payload, input, offline, t, sys1);
      }
    }
  }

  lemma {:induction false} DeviceSaysWhether<S>(
      fuel: nat, config: Config, api: Api<S>, payload: Payload, input: Input, offline: bool, t: int, sys: Sys<S>)
    requires fuel > 0 && DeviceOutcome(fuel, config, api, payload, input, offline, t, sys).Some?
    requires payload.status != 0
    requires !(payload.license.blocked && config.blockOnCompanyBlocked)
    requires !(Expired(payload.license, t) && config.blockOnExpired)
    ensures SaysWhether(config, input, offline, DeviceOutcome(fuel, config, api, payload, input, offline, t, sys).value)
    decreases fuel, 0
  {
    if FindDevice(payload.license.devices, DeviceKey(input)).None?
       && Or(input.allowDeviceCreate, config.autoRegisterDevice) {
      match TryDevice(api, sys, input)
      case Again(p, sys') => AllowedIffPasses(fuel - 1, config, api, p, input, offline, sys');
      case Stay(d, sys') => FinishSaysWhether(config, api, payload, input, offline, d, sys');
    } else {
      FinishSaysWhether(config, api, payload, input, offline, [], sys);
    }
  }

  /** The end of an evaluation allows exactly when the device checks pass. */
  lemma FinishSaysWhether<S>(config: Config, api: Api<S>, payload: Payload, input: Input, offline: bool,
                             diagnostics: seq<Diagnostic>, sys: Sys<S>)
    ensures var device := FindDevice(payload.license.devices, DeviceKey(input));
            var decision := Finish(config, api, payload, input, offline, diagnostics, sys).0;
            && (decision.allowed <==> (config.blockOnDeviceMissing ==> device.Some?)
                                      && (config.blockOnDeviceBlocked && device.Some? ==> !device.value.blocked))
            && (decision.allowed <==> decision.decision == "allowed")
            && decision.license == Some(payload.license)
            && decision.source == SourceLabel(offline) && decision.usedOfflineCache == offline
            && (decision.device.Some? ==> decision.device == device)
  {
  }

  // Servers that forget

  /** A server that accepts every company registration and goes on answering that there is none. */
  ghost predicate Forgetful<S(!new)>(api: Api<S>, input: Input) {
    && (forall s :: api.registerCompany(s, input).0.None?)
    && (forall s :: var status := api.companyStatus(s, input.document).0; status.Ok? && status.value.status == 0)
  }

  /** Against a forgetful server no number of activations is enough. */
  lemma {:induction false} ForgetfulServerNeverEnds<S(!new)>(
      fuel: nat, config: Config, api: Api<S>, payload: Payload, input: Input, offline: bool, sys: Sys<S>)
    requires Forgetful(api, input)
    requires Or(input.allowCompanyCreate, config.autoRegisterCompany)
    requires payload.status == 0
    ensures Evaluate(fuel, config, api, payload, input, offline, sys) == None
  {
    if fuel > 0 {
      var retry := TryCompany(api, sys, input);
      ForgetfulServerNeverEnds(fuel - 1, config, api, retry.payload, input, offline, retry.sys);
    }
  }

  /** A sound licence for a known company that does not list the device. */
  predicate LacksDevice(payload: Payload, key: string) {
    && payload.status != 0 && !payload.license.blocked && payload.license.expiresAt.None?
    && FindDevice(payload.license.devices, key).None?
  }

  /** A server that accepts every device registration and never lists the device. */
  ghost predicate ForgetsDevice<S(!new)>(api: Api<S>, input: Input) {
    && (forall s :: api.registerDevice(s, input).0.None?)
    && (forall s :: var status := api.companyStatus(s, input.document).0;
                    status.Ok? && LacksDevice(status.value, DeviceKey(input)))
  }

  /** The same for devices. */
  lemma {:induction false} DeviceForgettingServerNeverEnds<S(!new)>(
      fuel: nat, config: Config, api: Api<S>, payload: Payload, input: Input, offline: bool, sys: Sys<S>)
    requires ForgetsDevice(api, input)
    requires Or(input.allowDeviceCreate, config.autoRegisterDevice)
    requires LacksDevice(payload, DeviceKey(input))
    ensures Evaluate(fuel, config, api, payload, input, offline, sys) == None
  {
    if fuel > 0 {
      var retry := TryDevice(api, sys, input);
      DeviceForgettingServerNeverEnds(fuel - 1, config, api, retry.payload, input, offline, retry.sys);
    }
  }

  // When every server lets an evaluation end

  /** Whether the input, or else the configuration, lets an evaluation register anything. */
  predicate MayRegister(config: Config, input: Input) {
    Or(input.allowCompanyCreate, config.autoRegisterCompany) || Or(input.allowDeviceCreate, config.autoRegisterDevice)
  }

  /** Without registrations one activation is enough, on any server and from any payload. */
  lemma NoRegistrationNoReentry<S>(
      fuel: nat, config: Config, api: Api<S>, payload: Payload, input: Input, offline: bool, sys: Sys<S>)
    requires !MayRegister(config, input) && fuel >= 1
    ensures var r := Evaluate(fuel, config, api, payload, input, offline, sys);
            r.Some? && r.value.reentries == 0 && r.value.calls == [] && r.value.final == payload
  {
  }

  ghost predicate Ends<S>(config: Config, api: Api<S>, payload: Payload, input: Input, offline: bool, sys: Sys<S>) {
    exists fuel: nat :: Evaluate(fuel, config, api, payload, input, offline, sys).Some?
  }

  ghost predicate EndsOnEveryServer(config: Config, input: Input, offline: bool) {
    forall api: Api<int>, payload: Payload, sys: Sys<int> :: Ends(config, api, payload, input, offline, sys)
  }

  /** A server that accepts everything and always answers the same; its world is the time. */
  function SteadyServer(status: Payload): Api<int> {
    Api((s, _) => (Err("no activation"), s), (s, _) => (Ok(status), s), (s, _) => (None, s), (s, _) => (None, s),
        (s, _, _) => (None, s), s => (s, s))
  }

  function PlainStatus(status: int): Payload {
    Payload(status, None, License(None, false, true, None, []))
  }

  /** Concrete servers that forget companies and devices. */
  lemma SteadyServersForget(input: Input)
    ensures Forgetful(SteadyServer(PlainStatus(0)), input)
    ensures ForgetsDevice(SteadyServer(PlainStatus(1)), input)
  {
  }

  /**
   * An evaluation ends on every server, whatever the payload, exactly when neither the company switch nor the
   * device switch is on.
   */
  lemma EndsOnEveryServerIff(config: Config, input: Input, offline: bool)
    ensures EndsOnEveryServer(config, input, offline) <==> !MayRegister(config, input)
  {
    SteadyServersForget(input);
    var sys := Sys(0, map[]);
    if Or(input.allowCompanyCreate, config.autoRegisterCompany) {
      var api, payload := SteadyServer(PlainStatus(0)), PlainStatus(0);
      forall fuel: nat ensures Evaluate(fuel, config, api, payload, input, offline, sys) == None {
        ForgetfulServerNeverEnds(fuel, config, api, payload, input, offline, sys);
      }
      assert !Ends(config, api, payload, input, offline, sys);
    } else if Or(input.allowDeviceCreate, config.autoRegisterDevice) {
      var api, payload := SteadyServer(PlainStatus(1)), PlainStatus(1);
      forall fuel: nat ensures Evaluate(fuel, config, api, payload, input, offline, sys) == None {
        DeviceForgettingServerNeverEnds(fuel, config, api, payload, input, offline, sys);
      }
      assert !Ends(config, api, payload, input, offline, sys);
    } else {
      forall api: Api<int>, payload: Payload, sys: Sys<int> ensures Ends(config, api, payload, input, offline, sys) {
        NoRegistrationNoReentry(1, config, api, payload, input, offline, sys);
      }
    }
  }
}
