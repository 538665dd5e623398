/**
 * The runtime settings: what they are read from the environment as, how they are normalised, and how they are
 * written to the `.env` file.
 */
module RuntimeConfig {
  import opened Wrappers
  import opened Text
  import opened EnvFile
  import opened SettingNames

  type u16 = n: int | 0 <= n < 0x1_0000
  type u64 = n: int | 0 <= n < 0x1_0000_0000_0000_0000

  datatype ApiSettings = ApiSettings(
    host: string, port: u16, baseUrl: string, docsUrl: string, autoStart: bool, restartOnConfigChange: bool,
    requireToken: bool, allowPublicNetwork: bool, corsEnabled: bool, tokenHeader: string, token: string,
    docsPublicLocal: bool, openScalarAfterStart: bool, timeoutMs: u64, logMode: string, docsEnabled: bool,
    docsPath: string)

  datatype WebSettings = WebSettings(enabled: bool, autoStart: bool, host: string, port: u16)

  datatype Address = Address(host: string, port: u16)

  datatype WebhookSettings = WebhookSettings(
    enabled: bool, autoStart: bool, host: string, port: u16, basePath: string, tokenRequired: bool,
    tokenHeader: string, token: string, allowLan: bool, allowExternal: bool)

  datatype WebSocketSettings = WebSocketSettings(
    enabled: bool, autoStart: bool, host: string, port: u16, path: string, tokenRequired: bool, tokenQuery: string,
    tokenHeader: string, token: string, allowLan: bool, allowExternal: bool, heartbeatSeconds: u64)

  datatype DesktopSettings = DesktopSettings(
    trayEnabled: bool, minimizeToTray: bool, closeToTray: bool, startWithWindows: bool, servicesAutoStart: bool,
    serviceName: string)

  datatype Settings = Settings(
    api: ApiSettings, web: WebSettings, auxiliary: Address, bridgeCore: Address, webhook: WebhookSettings,
    websocket: WebSocketSettings, desktop: DesktopSettings)

  const LOOPBACK: string := "127.0.0.1"
  const API_PORT: u16 := 61001
  const WEB_PORT: u16 := 61002
  const WEBHOOK_PORT: u16 := 61003
  const WEBSOCKET_PORT: u16 := 61004

  // Reading the environment

  /** A variable of the process, if set. */
  function Var(env: Env, name: string): Option<string> {
    if name in env then Some(env[name]) else None
  }

  /** What a variable that is set to a visible text says, and the default otherwise. */
  function EnvString(v: Option<string>, default: string): string {
    if v.Some? && Trim(v.value) != "" then v.value else default
  }

  /** An unsigned number as Rust parses it: an optional plus sign, digits, and no overflow. */
  function ParseUnsigned(text: string, limit: nat): Option<nat> {
    var digits := if |text| > 1 && text[0] == '+' then text[1..] else text;
    match DigitsValue(digits)
    case None => None
    case Some(n) => if n < limit then Some(n) else None
  }

  /** Zero counts as unset. */
  function EnvNumber(v: Option<string>, default: nat, limit: nat): (n: nat)
    requires default < limit
    ensures n < limit
  {
    if v.None? then default
    else
      match ParseUnsigned(v.value, limit)
      case None => default
      case Some(n) => if n > 0 then n else default
  }

  function EnvU16(v: Option<string>, default: u16): u16 {
    EnvNumber(v, default, 0x1_0000)
  }

  function EnvU64(v: Option<string>, default: u64): u64 {
    EnvNumber(v, default, 0x1_0000_0000_0000_0000)
  }

  predicate IsTrue(text: string) {
    var t := Lower(Trim(text));
    t == "1" || t == "true" || t == "yes" || t == "on"
  }

  function EnvBool(v: Option<string>, default: bool): bool {
    if v.None? then default else IsTrue(v.value)
  }

  // Defaults; a key without one of its own kind has the plainest.

  function DefaultText(k: Key): string {
    match k
    case Api(Host) => LOOPBACK
    case Api(BaseUrl) => "http://127.0.0.1:61001"
    case Api(ScalarUrl) => "http://127.0.0.1:61001/docs"
    case Api(TokenHeader) => "X-App-Token"
    case Api(LogMode) => "normal"
    case Api(DocsPath) => "/docs"
    case Web(Host) => LOOPBACK
    case Webhook(Host) => LOOPBACK
    case WebSocket(Host) => LOOPBACK
    case Webhook(BasePath) => "/webhooks"
    case Webhook(TokenHeader) => "X-Webhook-Token"
    case WebSocket(Path) => "/ws"
    case WebSocket(TokenQuery) => "token"
    case WebSocket(TokenHeader) => "X-WebSocket-Token"
    case Desktop(ServiceName) => "TunnaraConsoleServer"
    case _ => ""
  }

  function DefaultPort(k: Key): u16 {
    match k
    case Api(Port) => API_PORT
    case Web(Port) => WEB_PORT
    case Webhook(Port) => WEBHOOK_PORT
    case WebSocket(Port) => WEBSOCKET_PORT
    case _ => 0
  }

  function DefaultNumber(k: Key): u64 {
    match k
    case Api(TimeoutMs) => 8000
    case WebSocket(HeartbeatSeconds) => 30
    case _ => 0
  }

  function DefaultSwitch(k: Key): bool {
    match k
    case Api(AutoStart) => true
    case Api(RestartOnConfigChange) => true
    case Api(DocsPublicLocal) => true
    case Api(ScalarEnabled) => true
    case Web(AutoStart) => true
    case Webhook(TokenRequired) => true
    case WebSocket(TokenRequired) => true
    case Desktop(TrayEnabled) => true
    case Desktop(TrayMinimizeToTray) => true
    case _ => false
  }

  /** How the settings are read: a text, port, number or switch by its key. */
  datatype Reader = Reader(text: Key -> string, port: Key -> u16, number: Key -> u64, switch: Key -> bool)

  const WEB_DISABLED: string := PREFIX + "WEB_DISABLED"

  /** Reads from the environment; the web server is on by default unless a variable of its own disables it. */
  function EnvReader(env: Env): Reader {
    Reader(k => EnvString(Var(env, Name(k)), DefaultText(k)),
           k => EnvU16(Var(env, Name(k)), DefaultPort(k)),
           k => EnvU64(Var(env, Name(k)), DefaultNumber(k)),
           k => EnvBool(Var(env, Name(k)),
                        if k == Web(WebKey.Enabled) then !EnvBool(Var(env, WEB_DISABLED), false) else DefaultSwitch(k)))
  }

  function ReadApi(r: Reader): ApiSettings {
    ApiSettings(
      r.text(Api(ApiKey.Host)),
      r.port(Api(ApiKey.Port)),
      r.text(Api(BaseUrl)),
      r.text(Api(ScalarUrl)),
      r.switch(Api(ApiKey.AutoStart)),
      r.switch(Api(RestartOnConfigChange)),
      r.switch(Api(RequireToken)),
      r.switch(Api(AllowPublicNetwork)),
      r.switch(Api(Cors)),
      r.text(Api(ApiKey.TokenHeader)),
      r.text(Api(ApiKey.Token)),
      r.switch(Api(DocsPublicLocal)),
      r.switch(Api(OpenScalarAfterStart)),
      r.number(Api(TimeoutMs)),
      r.text(Api(LogMode)),
      r.switch(Api(ScalarEnabled)),
      r.text(Api(DocsPath)))
  }

  function ReadWeb(r: Reader): WebSettings {
    WebSettings(
      r.switch(Web(WebKey.Enabled)),
      r.switch(Web(WebKey.AutoStart)),
      r.text(Web(WebKey.Host)),
      r.port(Web(WebKey.Port)))
  }

  /** The auxiliary and bridge addresses are read under the webhook and websocket names. */
  function ReadAuxiliary(r: Reader): Address {
    Address(r.text(Webhook(WebhookKey.Host)),
            r.port(Webhook(WebhookKey.Port)))
  }

  function ReadBridge(r: Reader): Address {
    Address(r.text(WebSocket(WebSocketKey.Host)),
            r.port(WebSocket(WebSocketKey.Port)))
  }

  function ReadWebhook(r: Reader): WebhookSettings {
    WebhookSettings(
      r.switch(Webhook(WebhookKey.Enabled)),
      r.switch(Webhook(WebhookKey.AutoStart)),
      r.text(Webhook(WebhookKey.Host)),
      r.port(Webhook(WebhookKey.Port)),
      r.text(Webhook(BasePath)),
      r.switch(Webhook(WebhookKey.TokenRequired)),
      r.text(Webhook(WebhookKey.TokenHeader)),
      r.text(Webhook(WebhookKey.Token)),
      r.switch(Webhook(WebhookKey.AllowLan)),
      r.switch(Webhook(WebhookKey.AllowExternal)))
  }

  function ReadWebSocket(r: Reader): WebSocketSettings {
    WebSocketSettings(
      r.switch(WebSocket(WebSocketKey.Enabled)),
      r.switch(WebSocket(WebSocketKey.AutoStart)),
      r.text(WebSocket(WebSocketKey.Host)),
      r.port(WebSocket(WebSocketKey.Port)),
      r.text(WebSocket(Path)),
      r.switch(WebSocket(WebSocketKey.TokenRequired)),
      r.text(WebSocket(TokenQuery)),
      r.text(WebSocket(WebSocketKey.TokenHeader)),
      r.text(WebSocket(WebSocketKey.Token)),
      r.switch(WebSocket(WebSocketKey.AllowLan)),
      r.switch(WebSocket(WebSocketKey.AllowExternal)),
      r.number(WebSocket(HeartbeatSeconds)))
  }

  function ReadDesktop(r: Reader): DesktopSettings {
    DesktopSettings(
      r.switch(Desktop(TrayEnabled)),
      r.switch(Desktop(TrayMinimizeToTray)),
      r.switch(Desktop(TrayCloseToTray)),
      r.switch(Desktop(StartWithWindows)),
      r.switch(Desktop(ServicesAutoStart)),
      r.text(Desktop(ServiceName)))
  }

  function ReadWith(r: Reader): Settings {
    Settings(ReadApi(r), ReadWeb(r), ReadAuxiliary(r), ReadBridge(r), ReadWebhook(r), ReadWebSocket(r), ReadDesktop(r))
  }

  /** The default settings of a process: whatever its environment says. */
  function ReadSettings(env: Env): Settings {
    ReadWith(EnvReader(env))
  }

  // Normalising

  predicate Blank(s: string) {
    Trim(s) == ""
  }

  function Filled(s: string, default: string): string {
    if Blank(s) then default else s
  }

  function PublicUrlHost(host: string): string {
    if IsPublicBindHost(host) || Blank(host) then LOOPBACK else Trim(host)
  }

  function BaseUrlFor(host: string, port: u16): string {
    "http://" + PublicUrlHost(Trim(host)) + ":" + Decimal(port)
  }

  /** URLs that normalising replaces: blank ones and those naming the default or a wildcard address. */
  predicate Stale(url: string) {
    Blank(url) || Contains(url, "127.0.0.1:61001") || Contains(url, "0.0.0.0") || Contains(url, "[::]")
  }

  function Rooted(path: string): string {
    if StartsWith(path, '/') then path else "/" + Trim(path)
  }

  function NormalApi(a: ApiSettings): ApiSettings {
    var host := Filled(a.host, LOOPBACK);
    var open := IsPublicBindHost(host);
    var port := if a.port == 0 then API_PORT else a.port;
    var base := BaseUrlFor(host, port);
    var docsPath := Rooted(Filled(a.docsPath, "/docs"));
    a.(host := host, port := port,
       allowPublicNetwork := a.allowPublicNetwork || open, corsEnabled := a.corsEnabled || open,
       baseUrl := if Stale(a.baseUrl) then base else a.baseUrl,
       docsPath := docsPath,
       docsUrl := if Stale(a.docsUrl) then base + docsPath else a.docsUrl,
       timeoutMs := if a.timeoutMs < 1000 then 1000 else a.timeoutMs,
       logMode := Filled(a.logMode, "normal"), tokenHeader := Filled(a.tokenHeader, "X-App-Token"))
  }

  function NormalWeb(w: WebSettings): WebSettings {
    w.(host := Filled(w.host, LOOPBACK), port := if w.port == 0 then WEB_PORT else w.port)
  }

  function NormalWebhook(w: WebhookSettings): WebhookSettings {
    var host := Filled(w.host, LOOPBACK);
    w.(host := host, allowLan := w.allowLan || IsPublicBindHost(host),
       port := if w.port == 0 then WEBHOOK_PORT else w.port,
       basePath := Rooted(Filled(w.basePath, "/webhooks")),
       tokenHeader := Filled(w.tokenHeader, "X-Webhook-Token"))
  }

  function NormalWebSocket(w: WebSocketSettings): WebSocketSettings {
    var host := Filled(w.host, LOOPBACK);
    w.(host := host, allowLan := w.allowLan || IsPublicBindHost(host),
       port := if w.port == 0 then WEBSOCKET_PORT else w.port,
       path := Rooted(Filled(w.path, "/ws")),
       tokenQuery := Filled(w.tokenQuery, "token"), tokenHeader := Filled(w.tokenHeader, "X-WebSocket-Token"),
       heartbeatSeconds := if w.heartbeatSeconds == 0 then 30 else w.heartbeatSeconds)
  }

  function NormalDesktop(d: DesktopSettings): DesktopSettings {
    d.(serviceName := Filled(d.serviceName, "TunnaraConsoleServer"))
  }

  function Normalize(s: Settings): Settings {
    var webhook := NormalWebhook(s.webhook);
    var websocket := NormalWebSocket(s.websocket);
    Settings(NormalApi(s.api), NormalWeb(s.web), Address(webhook.host, webhook.port),
             Address(websocket.host, websocket.port), webhook, websocket, NormalDesktop(s.desktop))
  }

  /** Normal settings, service by service. */
  lemma NormalizeByService(s: Settings, r: Settings)
    ensures r == Normalize(s) <==>
            && r.api == NormalApi(s.api) && r.web == NormalWeb(s.web)
            && r.webhook == NormalWebhook(s.webhook) && r.auxiliary == Address(r.webhook.host, r.webhook.port)
            && r.websocket == NormalWebSocket(s.websocket) && r.bridgeCore == Address(r.websocket.host, r.websocket.port)
            && r.desktop == NormalDesktop(s.desktop)
  {
  }

  /** Settings being edited: the normaliser rewrites them service by service. */
  class RuntimeSettings {
    var api: ApiSettings
    var web: WebSettings
    var auxiliary: Address
    var bridgeCore: Address
    var webhook: WebhookSettings
    var websocket: WebSocketSettings
    var desktop: DesktopSettings

    constructor (s: Settings)
      ensures Current() == s
    {
      api, web, auxiliary, bridgeCore := s.api, s.web, s.auxiliary, s.bridgeCore;
      webhook, websocket, desktop := s.webhook, s.websocket, s.desktop;
    }

    ghost function Current(): Settings
      reads this
    {
      Settings(api, web, auxiliary, bridgeCore, webhook, websocket, desktop)
    }

    method NormalizeRuntimeSettings()
      modifies this
      ensures Current() == Normalize(old(Current()))
    {
      ghost var was := Current();
      NormalizeServices();
      NormalizeByService(was, Current());
    }

    method NormalizeServices()
      modifies this
      ensures api == NormalApi(old(api)) && web == NormalWeb(old(web))
      ensures webhook == NormalWebhook(old(webhook)) && auxiliary == Address(webhook.host, webhook.port)
      ensures websocket == NormalWebSocket(old(websocket)) && bridgeCore == Address(websocket.host, websocket.port)
      ensures desktop == NormalDesktop(old(desktop))
    {
      NormalizeHttp();
      NormalizeEvents();
      desktop := NormalDesktop(desktop);
    }

    method NormalizeHttp()
      modifies this`api, this`web
      ensures api == NormalApi(old(api)) && web == NormalWeb(old(web))
    {
      NormalizeApi();
      NormalizeWeb();
    }

    method NormalizeEvents()
      modifies this`webhook, this`auxiliary, this`websocket, this`bridgeCore
      ensures webhook == NormalWebhook(old(webhook)) && auxiliary == Address(webhook.host, webhook.port)
      ensures websocket == NormalWebSocket(old(websocket)) && bridgeCore == Address(websocket.host, websocket.port)
    {
      NormalizeWebhook();
      auxiliary := Address(webhook.host, webhook.port);
      NormalizeWebSocket();
      bridgeCore := Address(websocket.host, websocket.port);
    }

    method NormalizeApi()
      modifies this`api
      ensures api == NormalApi(old(api))
    {
      var host, port := Filled(api.host, LOOPBACK), api.port;
      if port == 0 {
        port := API_PORT;
      }
      var allowPublic, cors := api.allowPublicNetwork, api.corsEnabled;
      if IsPublicBindHost(host) {
        allowPublic, cors := true, true;
      }
      var base := BaseUrlFor(host, port);
      var baseUrl, docsPath, docsUrl := api.baseUrl, Filled(api.docsPath, "/docs"), api.docsUrl;
      if Stale(baseUrl) {
        baseUrl := base;
      }
      if !StartsWith(docsPath, '/') {
        docsPath := "/" + Trim(docsPath);
      }
      if Stale(docsUrl) {
        docsUrl := base + docsPath;
      }
      var timeout := api.timeoutMs;
      if timeout < 1000 {
        timeout := 1000;
      }
      api := api.(host := host, port := port, allowPublicNetwork := allowPublic, corsEnabled := cors,
                  baseUrl := baseUrl, docsPath := docsPath, docsUrl := docsUrl, timeoutMs := timeout,
                  logMode := Filled(api.logMode, "normal"), tokenHeader := Filled(api.tokenHeader, "X-App-Token"));
    }

    method NormalizeWeb()
      modifies this`web
      ensures web == NormalWeb(old(web))
    {
      web := web.(host := Filled(web.host, LOOPBACK));
      if web.port == 0 {
        web := web.(port := WEB_PORT);
      }
    }

    method NormalizeWebhook()
      modifies this`webhook
      ensures webhook == NormalWebhook(old(webhook))
    {
      var host, port, allowLan := Filled(webhook.host, LOOPBACK), webhook.port, webhook.allowLan;
      if IsPublicBindHost(host) {
        allowLan := true;
      }
      if port == 0 {
        port := WEBHOOK_PORT;
      }
      var basePath := Filled(webhook.basePath, "/webhooks");
      if !StartsWith(basePath, '/') {
        basePath := "/" + Trim(basePath);
      }
      webhook := webhook.(host := host, port := port, allowLan := allowLan, basePath := basePath,
                          tokenHeader := Filled(webhook.tokenHeader, "X-Webhook-Token"));
    }

    method NormalizeWebSocket()
      modifies this`websocket
      ensures websocket == NormalWebSocket(old(websocket))
    {
      var host, port, allowLan := Filled(websocket.host, LOOPBACK), websocket.port, websocket.allowLan;
      if IsPublicBindHost(host) {
        allowLan := true;
      }
      if port == 0 {
        port := WEBSOCKET_PORT;
      }
      var path := Filled(websocket.path, "/ws");
      if !StartsWith(path, '/') {
        path := "/" + Trim(path);
      }
      var heartbeat := websocket.heartbeatSeconds;
      if heartbeat == 0 {
        heartbeat := 30;
      }
      websocket := websocket.(host := host, port := port, allowLan := allowLan, path := path,
                              tokenQuery := Filled(websocket.tokenQuery, "token"),
                              tokenHeader := Filled(websocket.tokenHeader, "X-WebSocket-Token"),
                              heartbeatSeconds := heartbeat);
    }
  }

  // Normal settings

  predicate IsNormalApi(a: ApiSettings) {
    var base := BaseUrlFor(a.host, a.port);
    && !Blank(a.host) && a.port > 0 && a.timeoutMs >= 1000
    && (IsPublicBindHost(a.host) ==> a.allowPublicNetwork && a.corsEnabled)
    && StartsWith(a.docsPath, '/')
    && (Stale(a.baseUrl) ==> a.baseUrl == base)
    && (Stale(a.docsUrl) ==> a.docsUrl == base + a.docsPath)
    && !Blank(a.logMode) && !Blank(a.tokenHeader)
  }

  predicate IsNormalWeb(w: WebSettings) {
    !Blank(w.host) && w.port > 0
  }

  predicate IsNormalDesktop(d: DesktopSettings) {
    !Blank(d.serviceName)
  }

  predicate IsNormalWebhook(w: WebhookSettings) {
    && !Blank(w.host) && w.port > 0
    && (IsPublicBindHost(w.host) ==> w.allowLan)
    && StartsWith(w.basePath, '/') && !Blank(w.tokenHeader)
  }

  predicate IsNormalWebSocket(w: WebSocketSettings) {
    && !Blank(w.host) && w.port > 0 && w.heartbeatSeconds > 0
    && (IsPublicBindHost(w.host) ==> w.allowLan)
    && StartsWith(w.path, '/') && !Blank(w.tokenQuery) && !Blank(w.tokenHeader)
  }

  /** Settings in which every service has an address, a port and consistent switches and URLs. */
  predicate IsNormal(s: Settings) {
    && IsNormalApi(s.api)
    && IsNormalWeb(s.web) && IsNormalDesktop(s.desktop)
    && IsNormalWebhook(s.webhook) && IsNormalWebSocket(s.websocket)
    && s.auxiliary == Address(s.webhook.host, s.webhook.port)
    && s.bridgeCore == Address(s.websocket.host, s.websocket.port)
  }

  lemma VisibleIsNotBlank(s: string, i: nat)
    requires i < |s| && !IsSpace(s[i])
    ensures !Blank(s)
  {
    TrimEmpty(s);
  }

  lemma RootedIsNotBlank(path: string)
    requires StartsWith(path, '/')
    ensures !Blank(path)
  {
    VisibleIsNotBlank(path, 0);
  }

  /** A default that starts with a visible character is never blank, so a filled text never is. */
  lemma FilledIsNotBlank(s: string, default: string)
    requires default != "" && !IsSpace(default[0])
    ensures !Blank(Filled(s, default))
  {
    VisibleIsNotBlank(default, 0);
  }

  /** Normalising always gives normal settings. */
  lemma NormalizeGivesNormal(s: Settings)
    ensures IsNormal(Normalize(s))
  {
    NormalizeByService(s, Normalize(s));
    NormalApiIsNormal(s.api);
    NormalWebIsNormal(s.web);
    NormalWebhookIsNormal(s.webhook);
    NormalWebSocketIsNormal(s.websocket);
    NormalDesktopIsNormal(s.desktop);
  }

  lemma NormalWebIsNormal(w: WebSettings)
    ensures IsNormalWeb(NormalWeb(w))
  {
    FilledIsNotBlank(w.host, LOOPBACK);
  }

  lemma NormalDesktopIsNormal(d: DesktopSettings)
    ensures IsNormalDesktop(NormalDesktop(d))
  {
    FilledIsNotBlank(d.serviceName, "TunnaraConsoleServer");
  }

  lemma NormalWebhookIsNormal(w: WebhookSettings)
    ensures IsNormalWebhook(NormalWebhook(w))
  {
    FilledIsNotBlank(w.host, LOOPBACK);
    FilledIsNotBlank(w.tokenHeader, "X-Webhook-Token");
  }

  lemma NormalWebSocketIsNormal(w: WebSocketSettings)
    ensures IsNormalWebSocket(NormalWebSocket(w))
  {
    FilledIsNotBlank(w.host, LOOPBACK);
    FilledIsNotBlank(w.tokenQuery, "token");
    FilledIsNotBlank(w.tokenHeader, "X-WebSocket-Token");
  }

  lemma NormalApiIsNormal(a: ApiSettings)
    ensures IsNormalApi(NormalApi(a))
  {
    FilledIsNotBlank(a.host, LOOPBACK);
    FilledIsNotBlank(a.logMode, "normal");
    FilledIsNotBlank(a.tokenHeader, "X-App-Token");
  }

  lemma NormalApiIsFixed(a: ApiSettings)
    requires IsNormalApi(a)
    ensures NormalApi(a) == a
  {
    RootedIsNotBlank(a.docsPath);
  }

  lemma NormalWebhookIsFixed(w: WebhookSettings)
    requires IsNormalWebhook(w)
    ensures NormalWebhook(w) == w
  {
    RootedIsNotBlank(w.basePath);
  }

  lemma NormalWebSocketIsFixed(w: WebSocketSettings)
    requires IsNormalWebSocket(w)
    ensures NormalWebSocket(w) == w
  {
    RootedIsNotBlank(w.path);
  }

  /** The normal settings are exactly those that normalising leaves alone. */
  lemma NormalIffFixed(s: Settings)
    ensures IsNormal(s) <==> Normalize(s) == s
  {
    NormalizeGivesNormal(s);
    if IsNormal(s) {
      NormalApiIsFixed(s.api);
      NormalWebhookIsFixed(s.webhook);
      NormalWebSocketIsFixed(s.websocket);
      NormalizeByService(s, s);
    }
  }

  /** Normalising twice is normalising once, on every record. */
  lemma NormalizeIdempotent(s: Settings)
    ensures Normalize(Normalize(s)) == Normalize(s)
  {
    NormalizeGivesNormal(s);
    NormalIffFixed(Normalize(s));
  }
}
