/** The `.env` file as it is written from the settings, and the texts it holds. */
module EnvWriting {
  import opened Text
  import opened EnvFile
  import opened SettingNames
  import opened RuntimeConfig

  // Writing

  function BoolText(b: bool): string {
    if b then "true" else "false"
  }

  function ApiText(a: ApiSettings, k: ApiKey): string {
    match k
    case Host => a.host
    case Port => Decimal(a.port)
    case BaseUrl => a.baseUrl
    case AutoStart => BoolText(a.autoStart)
    case RestartOnConfigChange => BoolText(a.restartOnConfigChange)
    case RequireToken => BoolText(a.requireToken)
    case AllowPublicNetwork => BoolText(a.allowPublicNetwork)
    case Cors => BoolText(a.corsEnabled)
    case TokenHeader => a.tokenHeader
    case Token => a.token
    case DocsPublicLocal => BoolText(a.docsPublicLocal)
    case OpenScalarAfterStart => BoolText(a.openScalarAfterStart)
    case TimeoutMs => Decimal(a.timeoutMs)
    case LogMode => a.logMode
    case ScalarEnabled => BoolText(a.docsEnabled)
    case ScalarUrl => a.docsUrl
    case DocsPath => a.docsPath
  }

  function WebText(w: WebSettings, k: WebKey): string {
    match k
    case Enabled => BoolText(w.enabled)
    case Host => w.host
    case Port => Decimal(w.port)
    case AutoStart => BoolText(w.autoStart)
    case BindLan => BoolText(IsPublicBindHost(w.host))
  }

  function AddressText(a: Address, k: AddressKey): string {
    match k
    case Host => a.host
    case Port => Decimal(a.port)
  }

  function WebhookText(w: WebhookSettings, k: WebhookKey): string {
    match k
    case Enabled => BoolText(w.enabled)
    case AutoStart => BoolText(w.autoStart)
    case Host => w.host
    case Port => Decimal(w.port)
    case BasePath => w.basePath
    case TokenRequired => BoolText(w.tokenRequired)
    case TokenHeader => w.tokenHeader
    case Token => w.token
    case AllowLan => BoolText(w.allowLan)
    case AllowExternal => BoolText(w.allowExternal)
  }

  function WebSocketText(w: WebSocketSettings, k: WebSocketKey): string {
    match k
    case Enabled => BoolText(w.enabled)
    case AutoStart => BoolText(w.autoStart)
    case Host => w.host
    case Port => Decimal(w.port)
    case Path => w.path
    case TokenRequired => BoolText(w.tokenRequired)
    case TokenQuery => w.tokenQuery
    case TokenHeader => w.tokenHeader
    case Token => w.token
    case AllowLan => BoolText(w.allowLan)
    case AllowExternal => BoolText(w.allowExternal)
    case HeartbeatSeconds => Decimal(w.heartbeatSeconds)
  }

  function DesktopText(d: DesktopSettings, k: DesktopKey): string {
    match k
    case TrayEnabled => BoolText(d.trayEnabled)
    case TrayMinimizeToTray => BoolText(d.minimizeToTray)
    case TrayCloseToTray => BoolText(d.closeToTray)
    case StartWithWindows => BoolText(d.startWithWindows)
    case ServicesAutoStart => BoolText(d.servicesAutoStart)
    case ServiceName => d.serviceName
  }

  function Shown(s: Settings, k: Key): string {
    match k
    case Api(i) => ApiText(s.api, i)
    case Web(i) => WebText(s.web, i)
    case Aux(i) => AddressText(s.auxiliary, i)
    case Bridge(i) => AddressText(s.bridgeCore, i)
    case Webhook(i) => WebhookText(s.webhook, i)
    case WebSocket(i) => WebSocketText(s.websocket, i)
    case Desktop(i) => DesktopText(s.desktop, i)
  }

  function Written(s: Settings): (r: Entries)
    ensures |r| == COUNT
    ensures forall i | 0 <= i < COUNT :: r[i] == (Name(KeyAt(i)), Shown(s, KeyAt(i)))
  {
    seq(COUNT, i requires 0 <= i < COUNT => (Name(KeyAt(i)), Shown(s, KeyAt(i))))
  }

  const FIRST: string := "# Tunnara Console - " + "gerado pela tela Sistema e parâmetros"
  const LAST: string :=
    "# Informe TUNNARA_CONSOLE_API_TOKEN" + " via secret/env real em produção;" + " não commite tokens."

  function WriteEnvFile(s: Settings): string {
    FIRST + "\n" + Print(Written(s), LAST)
  }

  // The texts among the settings

  predicate ApiTexts(a: ApiSettings, p: string -> bool) {
    p(a.host) && p(a.baseUrl) && p(a.tokenHeader) && p(a.token) && p(a.logMode) && p(a.docsUrl) && p(a.docsPath)
  }

  predicate WebTexts(w: WebSettings, p: string -> bool) {
    p(w.host)
  }

  predicate AddressTexts(a: Address, p: string -> bool) {
    p(a.host)
  }

  predicate WebhookTexts(w: WebhookSettings, p: string -> bool) {
    p(w.host) && p(w.basePath) && p(w.tokenHeader) && p(w.token)
  }

  predicate WebSocketTexts(w: WebSocketSettings, p: string -> bool) {
    p(w.host) && p(w.path) && p(w.tokenQuery) && p(w.tokenHeader) && p(w.token)
  }

  predicate DesktopTexts(d: DesktopSettings, p: string -> bool) {
    p(d.serviceName)
  }

  /** A property of every text the settings hold. */
  predicate Texts(s: Settings, p: string -> bool) {
    && ApiTexts(s.api, p) && WebTexts(s.web, p) && AddressTexts(s.auxiliary, p) && AddressTexts(s.bridgeCore, p)
    && WebhookTexts(s.webhook, p) && WebSocketTexts(s.websocket, p) && DesktopTexts(s.desktop, p)
  }

  /** A property of every number and switch as printed. */
  ghost predicate PrintsWith(p: string -> bool) {
    (forall n: nat :: p(Decimal(n))) && p("true") && p("false")
  }

  ghost predicate AllShown(s: Settings, p: string -> bool) {
    forall k: Key :: p(Shown(s, k))
  }

  lemma ShownByText(s: Settings, p: string -> bool)
    requires PrintsWith(p)
    ensures AllShown(s, p) <==> Texts(s, p)
  {
    if Texts(s, p) {
      forall k: Key ensures p(Shown(s, k)) {
        ShownHas(s, k, p);
      }
    }
    if AllShown(s, p) {
      TextsOfShown(s, p);
    }
  }

  lemma ShownHas(s: Settings, k: Key, p: string -> bool)
    requires PrintsWith(p) && Texts(s, p)
    ensures p(Shown(s, k))
  {
    match k
    case Api(i) => ApiTextHas(s.api, i, p);
    case Web(i) =>
    case Aux(i) =>
    case Bridge(i) =>
    case Webhook(i) =>
    case WebSocket(i) => WebSocketTextHas(s.websocket, i, p);
    case Desktop(i) =>
  }

  lemma ApiTextHas(a: ApiSettings, k: ApiKey, p: string -> bool)
    requires PrintsWith(p) && ApiTexts(a, p)
    ensures p(ApiText(a, k))
  {
  }

  lemma WebSocketTextHas(w: WebSocketSettings, k: WebSocketKey, p: string -> bool)
    requires PrintsWith(p) && WebSocketTexts(w, p)
    ensures p(WebSocketText(w, k))
  {
  }

  lemma TextsOfShown(s: Settings, p: string -> bool)
    requires AllShown(s, p)
    ensures Texts(s, p)
  {
    ApiTextsOfShown(s, p);
    WebhookTextsOfShown(s, p);
    WebSocketTextsOfShown(s, p);
    OtherTextsOfShown(s, p);
  }

  lemma ApiTextsOfShown(s: Settings, p: string -> bool)
    requires AllShown(s, p)
    ensures ApiTexts(s.api, p)
  {
    assert p(Shown(s, Api(ApiKey.Host))) && p(Shown(s, Api(BaseUrl))) && p(Shown(s, Api(ApiKey.TokenHeader)));
    assert p(Shown(s, Api(ApiKey.Token))) && p(Shown(s, Api(LogMode))) && p(Shown(s, Api(ScalarUrl)));
    assert p(Shown(s, Api(DocsPath)));
  }

  lemma WebhookTextsOfShown(s: Settings, p: string -> bool)
    requires AllShown(s, p)
    ensures WebhookTexts(s.webhook, p)
  {
    assert p(Shown(s, Webhook(WebhookKey.Host))) && p(Shown(s, Webhook(BasePath)));
    assert p(Shown(s, Webhook(WebhookKey.TokenHeader))) && p(Shown(s, Webhook(WebhookKey.Token)));
  }

  lemma WebSocketTextsOfShown(s: Settings, p: string -> bool)
    requires AllShown(s, p)
    ensures WebSocketTexts(s.websocket, p)
  {
    assert p(Shown(s, WebSocket(WebSocketKey.Host))) && p(Shown(s, WebSocket(Path)));
    assert p(Shown(s, WebSocket(TokenQuery))) && p(Shown(s, WebSocket(WebSocketKey.TokenHeader)));
    assert p(Shown(s, WebSocket(WebSocketKey.Token)));
  }

  lemma OtherTextsOfShown(s: Settings, p: string -> bool)
    requires AllShown(s, p)
    ensures WebTexts(s.web, p) && AddressTexts(s.auxiliary, p) && AddressTexts(s.bridgeCore, p)
    ensures DesktopTexts(s.desktop, p)
  {
    assert p(Shown(s, Web(WebKey.Host))) && p(Shown(s, Desktop(ServiceName)));
    assert p(Shown(s, Aux(AddressKey.Host))) && p(Shown(s, Bridge(AddressKey.Host)));
  }
}
