/**
 * License checks with an offline cache. The licensing server, and time itself, are a world state that
 * every call may change; the service keeps one cache entry per document. Instants are nanoseconds.
 */
module LicenseService {
  import opened Wrappers

  const DAY: int := 86_400_000_000_000

  // Records

  datatype Device = Device(id: Option<string>, key: Option<string>, name: Option<string>, blocked: bool)

  datatype License = License(companyName: Option<string>, blocked: bool, active: bool, expiresAt: Option<int>, devices: seq<Device>)

  datatype Payload = Payload(status: int, message: Option<string>, license: License)

  datatype Diagnostic = Diagnostic(step: string, code: string, message: string)

  datatype Decision = Decision(
    allowed: bool, decision: string, reasonCode: Option<string>, step: Option<string>, message: string,
    usedOfflineCache: bool, warningDays: Option<int>, license: Option<License>, device: Option<Device>,
    diagnostics: seq<Diagnostic>, source: string)

  datatype Config = Config(
    offlineMaxAgeDays: int, warnBeforeDays: int,
    autoRegisterCompany: bool, autoRegisterDevice: bool, autoUpdateDeviceName: bool,
    blockOnCompanyBlocked: bool, blockOnDeviceBlocked: bool, blockOnDeviceMissing: bool, blockOnExpired: bool,
    preferResolveActivation: bool, allowLegacyFallback: bool)

  /** The input after digits are extracted and the device and registration file have enriched it. */
  datatype Input = Input(
    document: string, deviceKey: Option<string>, stationName: Option<string>, deviceName: Option<string>,
    allowCompanyCreate: Option<bool>, allowDeviceCreate: Option<bool>, allowDeviceUpdate: Option<bool>)

  /** The input of an offline evaluation carries nothing but the document. */
  function BareInput(document: string): Input {
    Input(document, None, None, None, None, None, None)
  }

  function Or<T>(o: Option<T>, default: T): T {
    if o.Some? then o.value else default
  }

  function DeviceKey(input: Input): string {
    Or(input.deviceKey, "")
  }

  function DeviceName(input: Input): string {
    if input.stationName.Some? then input.stationName.value else Or(input.deviceName, "")
  }

  // The world

  /** The server's answers and the clock; an update call answers None on success and a message otherwise. */
  datatype Api<!S> = Api(
    resolve: (S, Input) -> (Result<Decision, string>, S),
    companyStatus: (S, string) -> (Result<Payload, string>, S),
    registerCompany: (S, Input) -> (Option<string>, S),
    registerDevice: (S, Input) -> (Option<string>, S),
    renameDevice: (S, string, Input) -> (Option<string>, S),
    now: S -> (int, S))

  datatype Entry = Entry(cachedAt: int, decision: Option<Decision>, payload: Option<Payload>)

  type Cache = map<string, Entry>

  datatype Sys<!S> = Sys(world: S, cache: Cache)

  function PutPayload<S>(api: Api<S>, sys: Sys<S>, document: string, payload: Payload): Sys<S> {
    var (t, w) := api.now(sys.world);
    Sys(w, sys.cache[document := Entry(t, None, Some(payload))])
  }

  function PutDecision<S>(api: Api<S>, sys: Sys<S>, document: string, decision: Decision): (int, Sys<S>) {
    var (t, w) := api.now(sys.world);
    (t, Sys(w, sys.cache[document := Entry(t, Some(decision), None)]))
  }

  // Verdicts

  function SourceLabel(offline: bool): string {
    if offline then "offline" else "online"
  }

  const USING_CACHE: string := "ONLINE_VALIDATION_FAILED_USING_CACHE"

  function Deny(message: string, reason: string, step: string, offline: bool, license: License,
                device: Option<Device>, diagnostics: seq<Diagnostic>): Decision
  {
    Decision(false, "denied", Some(reason), Some(step), message, offline, None, Some(license), device, diagnostics,
             SourceLabel(offline))
  }

  function Allow(offline: bool, warning: Option<int>, license: License, device: Option<Device>,
                 diagnostics: seq<Diagnostic>): Decision
  {
    Decision(true, "allowed", Some(if offline then USING_CACHE else "LICENSE_VALID"), Some("validate_license"),
             if offline then "license validated from the offline cache" else "license validated",
             offline, warning, Some(license), device, diagnostics, SourceLabel(offline))
  }

  /** The first device whose key, absent counting as empty, is the given one. */
  function FindDevice(devices: seq<Device>, key: string): (r: Option<Device>)
    ensures r.Some? ==> r.value in devices && Or(r.value.key, "") == key
    ensures r.None? ==> forall d | d in devices :: Or(d.key, "") != key
  {
    if devices == [] then None
    else if Or(devices[0].key, "") == key then Some(devices[0])
    else FindDevice(devices[1..], key)
  }

  /** Whole days of a duration, truncated toward zero. */
  function WholeDays(duration: int): int {
    if duration >= 0 then duration / DAY else -((-duration) / DAY)
  }

  function ExpiryWarning(config: Config, expiresAt: int, now: int): Option<int> {
    var left := WholeDays(expiresAt - now);
    if 0 <= left <= config.warnBeforeDays then Some(left) else None
  }

  // Evaluation of a payload

  datatype Call = RegisterCompany | RegisterDevice

  /** A finished evaluation: the payload it ended on, when it read the clock for expiry, its registrations. */
  datatype Evaluation<!S> = Evaluation(
    decision: Decision, sys: Sys<S>, final: Payload, checkedAt: int, calls: seq<Call>, reentries: nat)

  datatype Retry<!S> = Again(payload: Payload, sys: Sys<S>) | Stay(diagnostics: seq<Diagnostic>, sys: Sys<S>)

  /** After a registration: ask for the status again and cache it, or stay with what went wrong. */
  function AfterRegistration<S>(
      api: Api<S>, sys: Sys<S>, document: string, answer: (Option<string>, S), step: string, code: string): Retry<S>
  {
    match answer.0
    case Some(message) => Stay([Diagnostic(step, code, message)], Sys(answer.1, sys.cache))
    case None =>
      var (status, w) := api.companyStatus(answer.1, document);
      match status
      case Ok(payload) => Again(payload, PutPayload(api, Sys(w, sys.cache), document, payload))
      case Err(_) => Stay([], Sys(w, sys.cache))
  }

  function TryCompany<S>(api: Api<S>, sys: Sys<S>, input: Input): Retry<S> {
    AfterRegistration(api, sys, input.document, api.registerCompany(sys.world, input),
                      "register_company", "COMPANY_AUTO_CREATE_FAILED")
  }

  function TryDevice<S>(api: Api<S>, sys: Sys<S>, input: Input): Retry<S> {
    AfterRegistration(api, sys, input.document, api.registerDevice(sys.world, input),
                      "register_device", "DEVICE_AUTO_CREATE_FAILED")
  }

  function NotFound(payload: Payload, offline: bool, diagnostics: seq<Diagnostic>): Decision {
    Deny(Or(payload.message, "company not registered with the licensing service"),
         "COMPANY_NOT_FOUND", "resolve_company", offline, payload.license, None, diagnostics)
  }

  /** The clock is read for expiry only when the license has an expiry date. */
  function ReadForExpiry<S>(api: Api<S>, sys: Sys<S>, license: License): (int, Sys<S>) {
    if license.expiresAt.Some? then
      var (t, w) := api.now(sys.world);
      (t, Sys(w, sys.cache))
    else (0, sys)
  }

  predicate Expired(license: License, now: int) {
    license.expiresAt.Some? && license.expiresAt.value < now
  }

  /** The end of an evaluation once the device, if any, is known. */
  function Finish<S>(config: Config, api: Api<S>, payload: Payload, input: Input, offline: bool,
                     diagnostics: seq<Diagnostic>, sys: Sys<S>): (Decision, Sys<S>)
  {
    var device := FindDevice(payload.license.devices, DeviceKey(input));
    if device.None? && config.blockOnDeviceMissing then
      (Deny("device not authorised for this license", "DEVICE_NOT_FOUND", "resolve_device", offline, payload.license,
            None, diagnostics), sys)
    else if device.Some? && device.value.blocked && config.blockOnDeviceBlocked then
      (Deny("device blocked for this license", "DEVICE_BLOCKED", "validate_device", offline, payload.license, device,
            diagnostics), sys)
    else
      var (diagnostics', world') := Rename(config, api, device, input, diagnostics, sys.world);
      var (t, sys') := ReadForExpiry(api, Sys(world', sys.cache), payload.license);
      var warning := if payload.license.expiresAt.Some? then ExpiryWarning(config, payload.license.expiresAt.value, t) else None;
      (Allow(offline, warning, payload.license, device, diagnostics'), sys')
  }

  function Rename<S>(config: Config, api: Api<S>, device: Option<Device>, input: Input,
                     diagnostics: seq<Diagnostic>, world: S): (seq<Diagnostic>, S)
  {
    if device.Some? && Or(input.allowDeviceUpdate, config.autoUpdateDeviceName)
       && device.value.id.Some? && device.value.name.Some? && device.value.name.value != DeviceName(input)
    then
      var (error, w) := api.renameDevice(world, device.value.id.value, input);
      (if error.Some? then diagnostics + [Diagnostic("update_device", "DEVICE_AUTO_UPDATE_FAILED", error.value)] else diagnostics, w)
    else (diagnostics, world)
  }

  function Deeper<S>(r: Option<Evaluation<S>>, call: Call): Option<Evaluation<S>> {
    match r
    case None => None
    case Some(e) => Some(e.(calls := [call] + e.calls, reentries := e.reentries + 1))
  }

  /**
   * The self-calling evaluation, followed for at most `fuel` activations; None when that is not enough.
   */
  function Evaluate<S>(fuel: nat, config: Config, api: Api<S>, payload: Payload, input: Input, offline: bool,
                       sys: Sys<S>): Option<Evaluation<S>>
    decreases fuel, 1
  {
    if fuel == 0 then None
    else if payload.status == 0 then
      if Or(input.allowCompanyCreate, config.autoRegisterCompany) then
        match TryCompany(api, sys, input)
        case Again(p, sys') => Deeper(Evaluate(fuel - 1, config, api, p, input, offline, sys'), RegisterCompany)
        case Stay(d, sys') => Some(Evaluation(NotFound(payload, offline, d), sys', payload, 0, [RegisterCompany], 0))
      else Some(Evaluation(NotFound(payload, offline, []), sys, payload, 0, [], 0))
    else if payload.license.blocked && config.blockOnCompanyBlocked then
      Some(Evaluation(
             Deny("company blocked", "COMPANY_BLOCKED", "validate_company", offline, payload.license, None, []),
             sys, payload, 0, [], 0))
    else
      var (t, sys1) := ReadForExpiry(api, sys, payload.license);
      if Expired(payload.license, t) && config.blockOnExpired then
        Some(Evaluation(
               Deny("license expired", "LICENSE_EXPIRED", "validate_license", offline, payload.license, None, []),
               sys1, payload, t, [], 0))
      else DeviceOutcome(fuel, config, api, payload, input, offline, t, sys1)
  }

  /** The device part of an evaluation, after the company and the expiry date have passed at time `t`. */
  function DeviceOutcome<S>(fuel: nat, config: Config, api: Api<S>, payload: Payload, input: Input, offline: bool,
                            t: int, sys: Sys<S>): Option<Evaluation<S>>
    requires fuel > 0
    decreases fuel, 0
  {
    if FindDevice(payload.license.devices, DeviceKey(input)).None?
       && Or(input.allowDeviceCreate, config.autoRegisterDevice) then
      match TryDevice(api, sys, input)
      case Again(p, sys') => Deeper(Evaluate(fuel - 1, config, api, p, input, offline, sys'), RegisterDevice)
      case Stay(d, sys') =>
        var (decision, sys'') := Finish(config, api, payload, input, offline, d, sys');
        Some(Evaluation(decision, sys'', payload, t, [RegisterDevice], 0))
    else
      var (decision, sys') := Finish(config, api, payload, input, offline, [], sys);
      Some(Evaluation(decision, sys', payload, t, [], 0))
  }

  // A whole check

  datatype Failure = InvalidInput | NoCache | CacheExpired | Online(message: string)

  /** What an evaluation decided on: its last payload, and when it read the clock for expiry. */
  datatype Basis = Basis(final: Payload, checkedAt: int)

  /**
   * How a check got its result: a fresh decision, when it was cached and what it was decided on (None when the
   * server decided), the cache, or neither.
   */
  datatype Mode = Fresh(decision: Decision, at: int, basis: Option<Basis>) | FromCache(readAt: Option<int>) | Refused

  datatype Checked<!S> = Checked(result: Result<Decision, Failure>, sys: Sys<S>, mode: Mode)

  function AsOffline(d: Decision): Decision {
    d.(usedOfflineCache := true, source := "offline",
       reasonCode := if d.reasonCode.None? then Some(USING_CACHE) else d.reasonCode)
  }

  function TryOfflineCache<S>(fuel: nat, config: Config, api: Api<S>, document: string, err: string, sys: Sys<S>)
    : Option<Checked<S>>
  {
    if document !in sys.cache then Some(Checked(Err(NoCache), sys, FromCache(None)))
    else
      var cached := sys.cache[document];
      var (t, w) := api.now(sys.world);
      var sys1 := Sys(w, sys.cache);
      if WholeDays(t - cached.cachedAt) > config.offlineMaxAgeDays then
        Some(Checked(Err(CacheExpired), sys1, FromCache(Some(t))))
      else if cached.decision.Some? then
        Some(Checked(Ok(AsOffline(cached.decision.value)), sys1, FromCache(Some(t))))
      else if cached.payload.Some? then
        match Evaluate(fuel, config, api, cached.payload.value, BareInput(document), true, sys1)
        case None => None
        case Some(e) =>
          var d := e.decision.(reasonCode := Some(USING_CACHE), source := "offline");
          Some(Checked(Ok(d), e.sys, FromCache(Some(t))))
      else Some(Checked(Err(Online(err)), sys1, FromCache(Some(t))))
  }

  function CheckLegacy<S>(fuel: nat, config: Config, api: Api<S>, input: Input, sys: Sys<S>): Option<Checked<S>> {
    var (status, w) := api.companyStatus(sys.world, input.document);
    var sys1 := Sys(w, sys.cache);
    match status
    case Err(err) => TryOfflineCache(fuel, config, api, input.document, err, sys1)
    case Ok(payload) =>
      match Evaluate(fuel, config, api, payload, input, false, PutPayload(api, sys1, input.document, payload))
      case None => None
      case Some(e) =>
        var (t, sys2) := PutDecision(api, e.sys, input.document, e.decision);
        Some(Checked(Ok(e.decision), sys2, Fresh(e.decision, t, Some(Basis(e.final, e.checkedAt)))))
  }

  function Check<S>(fuel: nat, config: Config, api: Api<S>, input: Input, sys: Sys<S>): Option<Checked<S>> {
    if input.document == "" then Some(Checked(Err(InvalidInput), sys, Refused))
    else if config.preferResolveActivation then
      var (resolved, w) := api.resolve(sys.world, input);
      var sys1 := Sys(w, sys.cache);
      match resolved
      case Ok(decision) =>
        var (t, sys2) := PutDecision(api, sys1, input.document, decision);
        Some(Checked(Ok(decision), sys2, Fresh(decision, t, None)))
      case Err(err) =>
        if config.allowLegacyFallback then CheckLegacy(fuel, config, api, input, sys1)
        else TryOfflineCache(fuel, config, api, input.document, err, sys1)
    else CheckLegacy(fuel, config, api, input, sys)
  }

  /** The service object: it talks to the world and rewrites its cache. */
  class GenericLicenseService<!S> {
    const config: Config
    const api: Api<S>
    var world: S
    var cache: Cache

    constructor (config: Config, api: Api<S>, world: S)
      ensures this.config == config && this.api == api && View() == Sys(world, map[])
    {
      this.config, this.api, this.world, this.cache := config, api, world, map[];
    }

    ghost function View(): Sys<S>
      reads this
    {
      Sys(world, cache)
    }

    method Now() returns (t: int)
      modifies this`world
      ensures (t, world) == api.now(old(world))
    {
      var (t', w) := api.now(world);
      t, world := t', w;
    }

    method CachePayload(document: string, payload: Payload)
      modifies this
      ensures View() == PutPayload(api, old(View()), document, payload)
    {
      var t := Now();
      cache := cache[document := Entry(t, None, Some(payload))];
    }

    method CacheDecision(document: string, decision: Decision) returns (t: int)
      modifies this
      ensures (t, View()) == PutDecision(api, old(View()), document, decision)
    {
      t := Now();
      cache := cache[document := Entry(t, Some(decision), None)];
    }

    /** Registers, asks again and caches; Again carries the payload to re-enter with. */
    method Reask(document: string, answer: (Option<string>, S), step: string, code: string) returns (r: Retry<S>)
      modifies this
      ensures r == AfterRegistration(api, old(View()), document, answer, step, code)
      ensures View() == r.sys
    {
      world := answer.1;
      if answer.0.Some? {
        return Stay([Diagnostic(step, code, answer.0.value)], Sys(world, cache));
      }
      var (status, w) := api.companyStatus(world, document);
      world := w;
      match status
      case Ok(payload) =>
        CachePayload(document, payload);
        r := Again(payload, Sys(world, cache));
      case Err(_) =>
        r := Stay([], Sys(world, cache));
    }

    method FinishEvaluation(payload: Payload, input: Input, offline: bool, diagnostics: seq<Diagnostic>)
      returns (decision: Decision)
      modifies this`world
      ensures (decision, View()) == Finish(config, api, payload, input, offline, diagnostics, old(View()))
    {
      var device := FindDevice(payload.license.devices, DeviceKey(input));
      if device.None? && config.blockOnDeviceMissing {
        return Deny("device not authorised for this license", "DEVICE_NOT_FOUND", "resolve_device", offline,
                    payload.license, None, diagnostics);
      }
      if device.Some? && device.value.blocked && config.blockOnDeviceBlocked {
        return Deny("device blocked for this license", "DEVICE_BLOCKED", "validate_device", offline, payload.license,
                    device, diagnostics);
      }
      var (all, w) := Rename(config, api, device, input, diagnostics, world);
      world := w;
      var warning := None;
      if payload.license.expiresAt.Some? {
        var t := Now();
        warning := ExpiryWarning(config, payload.license.expiresAt.value, t);
      }
      decision := Allow(offline, warning, payload.license, device, all);
    }

    method EvaluateLegacy(fuel: nat, payload: Payload, input: Input, offline: bool) returns (r: Option<Evaluation<S>>)
      modifies this
      ensures r == Evaluate(fuel, config, api, payload, input, offline, old(View()))
      ensures r.Some? ==> View() == r.value.sys
      decreases fuel, 1
    {
      if fuel == 0 {
        return None;
      }
      if payload.status == 0 {
        if Or(input.allowCompanyCreate, config.autoRegisterCompany) {
          var retry := Reask(input.document, api.registerCompany(world, input),
                             "register_company", "COMPANY_AUTO_CREATE_FAILED");
          if retry.Again? {
            var inner := EvaluateLegacy(fuel - 1, retry.payload, input, offline);
            return Deeper(inner, RegisterCompany);
          }
          return Some(Evaluation(NotFound(payload, offline, retry.diagnostics), Sys(world, cache), payload, 0,
                                 [RegisterCompany], 0));
        }
        return Some(Evaluation(NotFound(payload, offline, []), Sys(world, cache), payload, 0, [], 0));
      }
      if payload.license.blocked && config.blockOnCompanyBlocked {
        return Some(Evaluation(
          Deny("company blocked", "COMPANY_BLOCKED", "validate_company", offline, payload.license, None, []),
          Sys(world, cache), payload, 0, [], 0));
      }
      var t := 0;
      if payload.license.expiresAt.Some? {
        t := Now();
      }
      if Expired(payload.license, t) && config.blockOnExpired {
        return Some(Evaluation(
          Deny("license expired", "LICENSE_EXPIRED", "validate_license", offline, payload.license, None, []),
          Sys(world, cache), payload, t, [], 0));
      }
      r := EvaluateDevice(fuel, payload, input, offline, t);
    }

    /** The device part of an evaluation, after the company and the expiry date have passed. */
    method EvaluateDevice(fuel: nat, payload: Payload, input: Input, offline: bool, t: int)
      returns (r: Option<Evaluation<S>>)
      requires fuel > 0
      modifies this
      ensures r == DeviceOutcome(fuel, config, api, payload, input, offline, t, old(View()))
      ensures r.Some? ==> View() == r.value.sys
      decreases fuel, 0
    {
      if FindDevice(payload.license.devices, DeviceKey(input)).None?
         && Or(input.allowDeviceCreate, config.autoRegisterDevice) {
        var retry := Reask(input.document, api.registerDevice(world, input),
                           "register_device", "DEVICE_AUTO_CREATE_FAILED");
        if retry.Again? {
          var inner := EvaluateLegacy(fuel - 1, retry.payload, input, offline);
          return Deeper(inner, RegisterDevice);
        }
        var decision := FinishEvaluation(payload, input, offline, retry.diagnostics);
        return Some(Evaluation(decision, Sys(world, cache), payload, t, [RegisterDevice], 0));
      }
      var decision := FinishEvaluation(payload, input, offline, []);
      r := Some(Evaluation(decision, Sys(world, cache), payload, t, [], 0));
    }

    method TryOfflineCacheOrFail(fuel: nat, document: string, err: string) returns (r: Option<Checked<S>>)
      modifies this
      ensures r == TryOfflineCache(fuel, config, api, document, err, old(View()))
      ensures r.Some? ==> View() == r.value.sys
    {
      if document !in cache {
        return Some(Checked(Err(NoCache), Sys(world, cache), FromCache(None)));
      }
      var cached := cache[document];
      var t := Now();
      if WholeDays(t - cached.cachedAt) > config.offlineMaxAgeDays {
        return Some(Checked(Err(CacheExpired), Sys(world, cache), FromCache(Some(t))));
      }
      if cached.decision.Some? {
        return Some(Checked(Ok(AsOffline(cached.decision.value)), Sys(world, cache), FromCache(Some(t))));
      }
      if cached.payload.Some? {
        var e := EvaluateLegacy(fuel, cached.payload.value, BareInput(document), true);
        if e.None? {
          return None;
        }
        var d := e.value.decision.(reasonCode := Some(USING_CACHE), source := "offline");
        return Some(Checked(Ok(d), Sys(world, cache), FromCache(Some(t))));
      }
      r := Some(Checked(Err(Online(err)), Sys(world, cache), FromCache(Some(t))));
    }

    method CheckLicense(fuel: nat, input: Input) returns (r: Option<Checked<S>>)
      modifies this
      ensures r == Check(fuel, config, api, input, old(View()))
      ensures r.Some? ==> View() == r.value.sys
    {
      if input.document == "" {
        return Some(Checked(Err(InvalidInput), Sys(world, cache), Refused));
      }
      if config.preferResolveActivation {
        var (resolved, w) := api.resolve(world, input);
        world := w;
        if resolved.Ok? {
          var t := CacheDecision(input.document, resolved.value);
          return Some(Checked(Ok(resolved.value), Sys(world, cache), Fresh(resolved.value, t, None)));
        }
        if !config.allowLegacyFallback {
          r := TryOfflineCacheOrFail(fuel, input.document, resolved.error);
          return;
        }
      }
      var (status, w) := api.companyStatus(world, input.document);
      world := w;
      if status.Err? {
        r := TryOfflineCacheOrFail(fuel, input.document, status.error);
        return;
      }
      CachePayload(input.document, status.value);
      var e := EvaluateLegacy(fuel, status.value, input, false);
      if e.None? {
        return None;
      }
      var t := CacheDecision(input.document, e.value.decision);
      r := Some(Checked(Ok(e.value.decision), Sys(world, cache), Fresh(e.value.decision, t, Some(Basis(e.value.final, e.value.checkedAt)))));
    }
  }
}
