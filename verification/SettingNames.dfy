/** The names under which the settings stand in the `.env` file, in the order the file lists them. */
module SettingNames {
  import opened Text
  import opened EnvFile

  // Settings by service

  datatype ApiKey =
    Host | Port | BaseUrl | AutoStart | RestartOnConfigChange | RequireToken | AllowPublicNetwork | Cors |
    TokenHeader | Token | DocsPublicLocal | OpenScalarAfterStart | TimeoutMs | LogMode | ScalarEnabled |
    ScalarUrl | DocsPath
  datatype WebKey = Enabled | Host | Port | AutoStart | BindLan
  datatype AddressKey = Host | Port
  datatype WebhookKey =
    Enabled | AutoStart | Host | Port | BasePath | TokenRequired | TokenHeader | Token | AllowLan |
    AllowExternal
  datatype WebSocketKey =
    Enabled | AutoStart | Host | Port | Path | TokenRequired | TokenQuery | TokenHeader | Token | AllowLan |
    AllowExternal | HeartbeatSeconds
  datatype DesktopKey =
    TrayEnabled | TrayMinimizeToTray | TrayCloseToTray | StartWithWindows | ServicesAutoStart | ServiceName

  datatype Key =
    | Api(api: ApiKey)
    | Web(web: WebKey)
    | Aux(aux: AddressKey)
    | Bridge(bridge: AddressKey)
    | Webhook(webhook: WebhookKey)
    | WebSocket(websocket: WebSocketKey)
    | Desktop(desktop: DesktopKey)

  const PREFIX: string := "TUNNARA_CONSOLE_"

  function Name(k: Key): string {
    PREFIX + Service(k) + Item(k)
  }

  function Service(k: Key): string {
    match k
    case Api(_) => "API_"
    case Web(_) => "WEB_"
    case Aux(_) => "AUX_"
    case Bridge(_) => "BRIDGE_"
    case Webhook(_) => "WEBHOOK_"
    case WebSocket(_) => "WEBSOCKET_"
    case Desktop(_) => ""
  }

  function Item(k: Key): string {
    match k
    case Api(i) => ApiItem(i)
    case Web(i) => WebItem(i)
    case Aux(i) => AddressItem(i)
    case Bridge(i) => AddressItem(i)
    case Webhook(i) => WebhookItem(i)
    case WebSocket(i) => WebSocketItem(i)
    case Desktop(i) => DesktopItem(i)
  }

  function ApiItem(k: ApiKey): string {
    match k
    case Host => "HOST"
    case Port => "PORT"
    case BaseUrl => "BASE_URL"
    case AutoStart => "AUTO_START"
    case RestartOnConfigChange => "RESTART_ON_CONFIG_CHANGE"
    case RequireToken => "REQUIRE_TOKEN"
    case AllowPublicNetwork => "ALLOW_PUBLIC_NETWORK"
    case Cors => "CORS"
    case TokenHeader => "TOKEN_HEADER"
    case Token => "TOKEN"
    case DocsPublicLocal => "DOCS_PUBLIC_LOCAL"
    case OpenScalarAfterStart => "OPEN_SCALAR_AFTER_START"
    case TimeoutMs => "TIMEOUT_MS"
    case LogMode => "LOG_MODE"
    case ScalarEnabled => "SCALAR_ENABLED"
    case ScalarUrl => "SCALAR_URL"
    case DocsPath => "DOCS_PATH"
  }

  function WebItem(k: WebKey): string {
    match k
    case Enabled => "ENABLED"
    case Host => "HOST"
    case Port => "PORT"
    case AutoStart => "AUTO_START"
    case BindLan => "BIND_LAN"
  }

  function AddressItem(k: AddressKey): string {
    match k
    case Host => "HOST"
    case Port => "PORT"
  }

  function WebhookItem(k: WebhookKey): string {
    match k
    case Enabled => "ENABLED"
    case AutoStart => "AUTO_START"
    case Host => "HOST"
    case Port => "PORT"
    case BasePath => "BASE_PATH"
    case TokenRequired => "TOKEN_REQUIRED"
    case TokenHeader => "TOKEN_HEADER"
    case Token => "TOKEN"
    case AllowLan => "ALLOW_LAN"
    case AllowExternal => "ALLOW_EXTERNAL"
  }

  function WebSocketItem(k: WebSocketKey): string {
    match k
    case Enabled => "ENABLED"
    case AutoStart => "AUTO_START"
    case Host => "HOST"
    case Port => "PORT"
    case Path => "PATH"
    case TokenRequired => "TOKEN_REQUIRED"
    case TokenQuery => "TOKEN_QUERY"
    case TokenHeader => "TOKEN_HEADER"
    case Token => "TOKEN"
    case AllowLan => "ALLOW_LAN"
    case AllowExternal => "ALLOW_EXTERNAL"
    case HeartbeatSeconds => "HEARTBEAT_SECONDS"
  }

  function DesktopItem(k: DesktopKey): string {
    match k
    case TrayEnabled => "TRAY_ENABLED"
    case TrayMinimizeToTray => "TRAY_MINIMIZE_TO_TRAY"
    case TrayCloseToTray => "TRAY_CLOSE_TO_TRAY"
    case StartWithWindows => "START_WITH_WINDOWS"
    case ServicesAutoStart => "SERVICES_AUTO_START"
    case ServiceName => "SERVICE_NAME"
  }

  // The order of the file

  const COUNT: nat := 54

  function KeyAt(i: nat): Key
    requires i < COUNT
  {
    if i < 17 then Api(ApiAt(i))
    else if i < 22 then Web(WebAt(i - 17))
    else if i < 24 then Aux(AddressAt(i - 22))
    else if i < 26 then Bridge(AddressAt(i - 24))
    else if i < 36 then Webhook(WebhookAt(i - 26))
    else if i < 48 then WebSocket(WebSocketAt(i - 36))
    else Desktop(DesktopAt(i - 48))
  }

  function Place(k: Key): (i: nat)
    ensures i < COUNT
  {
    match k
    case Api(k) => ApiPlace(k)
    case Web(k) => 17 + WebPlace(k)
    case Aux(k) => 22 + AddressPlace(k)
    case Bridge(k) => 24 + AddressPlace(k)
    case Webhook(k) => 26 + WebhookPlace(k)
    case WebSocket(k) => 36 + WebSocketPlace(k)
    case Desktop(k) => 48 + DesktopPlace(k)
  }

  function ApiAt(i: nat): ApiKey {
    if i == 0 then ApiKey.Host
    else if i == 1 then ApiKey.Port
    else if i == 2 then ApiKey.BaseUrl
    else if i == 3 then ApiKey.AutoStart
    else if i == 4 then ApiKey.RestartOnConfigChange
    else if i == 5 then ApiKey.RequireToken
    else if i == 6 then ApiKey.AllowPublicNetwork
    else if i == 7 then ApiKey.Cors
    else if i == 8 then ApiKey.TokenHeader
    else if i == 9 then ApiKey.Token
    else if i == 10 then ApiKey.DocsPublicLocal
    else if i == 11 then ApiKey.OpenScalarAfterStart
    else if i == 12 then ApiKey.TimeoutMs
    else if i == 13 then ApiKey.LogMode
    else if i == 14 then ApiKey.ScalarEnabled
    else if i == 15 then ApiKey.ScalarUrl
    else ApiKey.DocsPath
  }

  function ApiPlace(k: ApiKey): (i: nat)
    ensures i < 17
  {
    match k
    case Host => 0
    case Port => 1
    case BaseUrl => 2
    case AutoStart => 3
    case RestartOnConfigChange => 4
    case RequireToken => 5
    case AllowPublicNetwork => 6
    case Cors => 7
    case TokenHeader => 8
    case Token => 9
    case DocsPublicLocal => 10
    case OpenScalarAfterStart => 11
    case TimeoutMs => 12
    case LogMode => 13
    case ScalarEnabled => 14
    case ScalarUrl => 15
    case DocsPath => 16
  }

  function WebAt(i: nat): WebKey {
    if i == 0 then WebKey.Enabled
    else if i == 1 then WebKey.Host
    else if i == 2 then WebKey.Port
    else if i == 3 then WebKey.AutoStart
    else WebKey.BindLan
  }

  function WebPlace(k: WebKey): (i: nat)
    ensures i < 5
  {
    match k
    case Enabled => 0
    case Host => 1
    case Port => 2
    case AutoStart => 3
    case BindLan => 4
  }

  function AddressAt(i: nat): AddressKey {
    if i == 0 then AddressKey.Host
    else AddressKey.Port
  }

  function AddressPlace(k: AddressKey): (i: nat)
    ensures i < 2
  {
    match k
    case Host => 0
    case Port => 1
  }

  function WebhookAt(i: nat): WebhookKey {
    if i == 0 then WebhookKey.Enabled
    else if i == 1 then WebhookKey.AutoStart
    else if i == 2 then WebhookKey.Host
    else if i == 3 then WebhookKey.Port
    else if i == 4 then WebhookKey.BasePath
    else if i == 5 then WebhookKey.TokenRequired
    else if i == 6 then WebhookKey.TokenHeader
    else if i == 7 then WebhookKey.Token
    else if i == 8 then WebhookKey.AllowLan
    else WebhookKey.AllowExternal
  }

  function WebhookPlace(k: WebhookKey): (i: nat)
    ensures i < 10
  {
    match k
    case Enabled => 0
    case AutoStart => 1
    case Host => 2
    case Port => 3
    case BasePath => 4
    case TokenRequired => 5
    case TokenHeader => 6
    case Token => 7
    case AllowLan => 8
    case AllowExternal => 9
  }

  function WebSocketAt(i: nat): WebSocketKey {
    if i == 0 then WebSocketKey.Enabled
    else if i == 1 then WebSocketKey.AutoStart
    else if i == 2 then WebSocketKey.Host
    else if i == 3 then WebSocketKey.Port
    else if i == 4 then WebSocketKey.Path
    else if i == 5 then WebSocketKey.TokenRequired
    else if i == 6 then WebSocketKey.TokenQuery
    else if i == 7 then WebSocketKey.TokenHeader
    else if i == 8 then WebSocketKey.Token
    else if i == 9 then WebSocketKey.AllowLan
    else if i == 10 then WebSocketKey.AllowExternal
    else WebSocketKey.HeartbeatSeconds
  }

  function WebSocketPlace(k: WebSocketKey): (i: nat)
    ensures i < 12
  {
    match k
    case Enabled => 0
    case AutoStart => 1
    case Host => 2
    case Port => 3
    case Path => 4
    case TokenRequired => 5
    case TokenQuery => 6
    case TokenHeader => 7
    case Token => 8
    case AllowLan => 9
    case AllowExternal => 10
    case HeartbeatSeconds => 11
  }

  function DesktopAt(i: nat): DesktopKey {
    if i == 0 then DesktopKey.TrayEnabled
    else if i == 1 then DesktopKey.TrayMinimizeToTray
    else if i == 2 then DesktopKey.TrayCloseToTray
    else if i == 3 then DesktopKey.StartWithWindows
    else if i == 4 then DesktopKey.ServicesAutoStart
    else DesktopKey.ServiceName
  }

  function DesktopPlace(k: DesktopKey): (i: nat)
    ensures i < 6
  {
    match k
    case TrayEnabled => 0
    case TrayMinimizeToTray => 1
    case TrayCloseToTray => 2
    case StartWithWindows => 3
    case ServicesAutoStart => 4
    case ServiceName => 5
  }

  /** The file lists every setting, each at one place. */
  lemma ListedOnce(k: Key, i: nat)
    requires i < COUNT
    ensures KeyAt(i) == k <==> i == Place(k)
  {
  }

  // Names are distinct: within a service two letters tell them apart.

  function ApiByLetters(first: char, last: char): ApiKey {
    if first == 'H' && last == 'T' then ApiKey.Host
    else if first == 'P' && last == 'T' then ApiKey.Port
    else if first == 'B' && last == 'L' then ApiKey.BaseUrl
    else if first == 'A' && last == 'T' then ApiKey.AutoStart
    else if first == 'R' && last == 'E' then ApiKey.RestartOnConfigChange
    else if first == 'R' && last == 'N' then ApiKey.RequireToken
    else if first == 'A' && last == 'K' then ApiKey.AllowPublicNetwork
    else if first == 'C' && last == 'S' then ApiKey.Cors
    else if first == 'T' && last == 'R' then ApiKey.TokenHeader
    else if first == 'T' && last == 'N' then ApiKey.Token
    else if first == 'D' && last == 'L' then ApiKey.DocsPublicLocal
    else if first == 'O' && last == 'T' then ApiKey.OpenScalarAfterStart
    else if first == 'T' && last == 'S' then ApiKey.TimeoutMs
    else if first == 'L' && last == 'E' then ApiKey.LogMode
    else if first == 'S' && last == 'D' then ApiKey.ScalarEnabled
    else if first == 'S' && last == 'L' then ApiKey.ScalarUrl
    else ApiKey.DocsPath
  }

  lemma ApiItemTells(k: ApiKey)
    ensures var s := ApiItem(k); |s| >= 4 && ApiByLetters(s[0], s[|s| - 1]) == k
  {
  }

  function WebByLetters(first: char): WebKey {
    if first == 'E' then WebKey.Enabled
    else if first == 'H' then WebKey.Host
    else if first == 'P' then WebKey.Port
    else if first == 'A' then WebKey.AutoStart
    else WebKey.BindLan
  }

  lemma WebItemTells(k: WebKey)
    ensures var s := WebItem(k); |s| >= 4 && WebByLetters(s[0]) == k
  {
  }

  function AddressByLetters(first: char): AddressKey {
    if first == 'H' then AddressKey.Host
    else AddressKey.Port
  }

  lemma AddressItemTells(k: AddressKey)
    ensures var s := AddressItem(k); |s| >= 4 && AddressByLetters(s[0]) == k
  {
  }

  function WebhookByLetters(first: char, last: char): WebhookKey {
    if first == 'E' && last == 'D' then WebhookKey.Enabled
    else if first == 'A' && last == 'T' then WebhookKey.AutoStart
    else if first == 'H' && last == 'T' then WebhookKey.Host
    else if first == 'P' && last == 'T' then WebhookKey.Port
    else if first == 'B' && last == 'H' then WebhookKey.BasePath
    else if first == 'T' && last == 'D' then WebhookKey.TokenRequired
    else if first == 'T' && last == 'R' then WebhookKey.TokenHeader
    else if first == 'T' && last == 'N' then WebhookKey.Token
    else if first == 'A' && last == 'N' then WebhookKey.AllowLan
    else WebhookKey.AllowExternal
  }

  lemma WebhookItemTells(k: WebhookKey)
    ensures var s := WebhookItem(k); |s| >= 4 && WebhookByLetters(s[0], s[|s| - 1]) == k
  {
  }

  function WebSocketByLetters(first: char, last: char): WebSocketKey {
    if first == 'E' && last == 'D' then WebSocketKey.Enabled
    else if first == 'A' && last == 'T' then WebSocketKey.AutoStart
    else if first == 'H' && last == 'T' then WebSocketKey.Host
    else if first == 'P' && last == 'T' then WebSocketKey.Port
    else if first == 'P' && last == 'H' then WebSocketKey.Path
    else if first == 'T' && last == 'D' then WebSocketKey.TokenRequired
    else if first == 'T' && last == 'Y' then WebSocketKey.TokenQuery
    else if first == 'T' && last == 'R' then WebSocketKey.TokenHeader
    else if first == 'T' && last == 'N' then WebSocketKey.Token
    else if first == 'A' && last == 'N' then WebSocketKey.AllowLan
    else if first == 'A' && last == 'L' then WebSocketKey.AllowExternal
    else WebSocketKey.HeartbeatSeconds
  }

  lemma WebSocketItemTells(k: WebSocketKey)
    ensures var s := WebSocketItem(k); |s| >= 4 && WebSocketByLetters(s[0], s[|s| - 1]) == k
  {
  }

  function DesktopByLetters(letter: char): DesktopKey {
    if letter == 'A' then DesktopKey.TrayEnabled
    else if letter == 'N' then DesktopKey.TrayMinimizeToTray
    else if letter == 'O' then DesktopKey.TrayCloseToTray
    else if letter == 'I' then DesktopKey.StartWithWindows
    else if letter == 'S' then DesktopKey.ServicesAutoStart
    else DesktopKey.ServiceName
  }

  lemma DesktopItemTells(k: DesktopKey)
    ensures var s := DesktopItem(k); |s| >= 12 && DesktopByLetters(s[7]) == k
  {
  }

  /** The letters that tell the services apart. */
  function Lead(s: string): (char, char, char)
    requires |s| >= 4
  {
    (s[0], if s[0] == 'A' then s[1] else ' ', if s[0] == 'W' then s[3] else ' ')
  }

  function LeadOf(k: Key): (char, char, char) {
    match k
    case Api(_) => ('A', 'P', ' ')
    case Web(_) => ('W', ' ', '_')
    case Aux(_) => ('A', 'U', ' ')
    case Bridge(_) => ('B', ' ', ' ')
    case Webhook(_) => ('W', ' ', 'H')
    case WebSocket(_) => ('W', ' ', 'S')
    case Desktop(i) => (if i.StartWithWindows? || i.ServicesAutoStart? || i.ServiceName? then 'S' else 'T', ' ', ' ')
  }

  lemma LeadTells(k: Key)
    ensures |Service(k) + Item(k)| >= 4 && Lead(Service(k) + Item(k)) == LeadOf(k)
  {
    if k.Desktop? {
      assert Service(k) + Item(k) == DesktopItem(k.desktop);
    }
  }

  lemma SamePrefix(prefix: string, a: string, b: string)
    ensures prefix + a == prefix + b <==> a == b
  {
    assert (prefix + a)[|prefix|..] == a && (prefix + b)[|prefix|..] == b;
  }

  lemma NamesAreDistinct(k: Key, l: Key)
    ensures Name(k) == Name(l) <==> k == l
  {
    if Name(k) == Name(l) {
      NameSplits(k);
      NameSplits(l);
      SamePrefix(PREFIX, Service(k) + Item(k), Service(l) + Item(l));
      LeadTells(k);
      LeadTells(l);
      LeadsGiveService(k, l);
      SamePrefix(Service(k), Item(k), Item(l));
      ItemsAreDistinct(k, l);
    }
  }

  lemma NameSplits(k: Key)
    ensures Name(k) == PREFIX + (Service(k) + Item(k))
  {
    Associates(PREFIX, Service(k), Item(k));
  }

  lemma LeadsGiveService(k: Key, l: Key)
    requires LeadOf(k) == LeadOf(l)
    ensures Service(k) == Service(l)
  {
  }

  lemma ItemsAreDistinct(k: Key, l: Key)
    requires LeadOf(k) == LeadOf(l) && Item(k) == Item(l)
    ensures k == l
  {
    match k
    case Api(i) => ApiItemTells(i); ApiItemTells(l.api);
    case Web(i) => WebItemTells(i); WebItemTells(l.web);
    case Aux(i) => AddressItemTells(i); AddressItemTells(l.aux);
    case Bridge(i) => AddressItemTells(i); AddressItemTells(l.bridge);
    case Webhook(i) => WebhookItemTells(i); WebhookItemTells(l.webhook);
    case WebSocket(i) => WebSocketItemTells(i); WebSocketItemTells(l.websocket);
    case Desktop(i) => DesktopItemTells(i); DesktopItemTells(l.desktop);
  }

  // The loader leaves names alone.

  /** Capital letters and underscores. */
  predicate Plain(s: string) {
    forall c | c in s :: 'A' <= c <= 'Z' || c == '_'
  }

  lemma EarlyApiItemIsPlain(k: ApiKey)
    requires ApiPlace(k) < 8
    ensures Plain(ApiItem(k))
  {
  }

  lemma LateApiItemIsPlain(k: ApiKey)
    requires ApiPlace(k) >= 8
    ensures Plain(ApiItem(k))
  {
  }

  lemma ApiItemIsPlain(k: ApiKey)
    ensures Plain(ApiItem(k))
  {
    if ApiPlace(k) < 8 {
      EarlyApiItemIsPlain(k);
    } else {
      LateApiItemIsPlain(k);
    }
  }

  lemma WebItemIsPlain(k: WebKey)
    ensures Plain(WebItem(k))
  {
  }

  lemma AddressItemIsPlain(k: AddressKey)
    ensures Plain(AddressItem(k))
  {
  }

  lemma EarlyWebhookItemIsPlain(k: WebhookKey)
    requires WebhookPlace(k) < 5
    ensures Plain(WebhookItem(k))
  {
  }

  lemma LateWebhookItemIsPlain(k: WebhookKey)
    requires WebhookPlace(k) >= 5
    ensures Plain(WebhookItem(k))
  {
  }

  lemma WebhookItemIsPlain(k: WebhookKey)
    ensures Plain(WebhookItem(k))
  {
    if WebhookPlace(k) < 5 {
      EarlyWebhookItemIsPlain(k);
    } else {
      LateWebhookItemIsPlain(k);
    }
  }

  lemma EarlyWebSocketItemIsPlain(k: WebSocketKey)
    requires WebSocketPlace(k) < 6
    ensures Plain(WebSocketItem(k))
  {
  }

  lemma LateWebSocketItemIsPlain(k: WebSocketKey)
    requires WebSocketPlace(k) >= 6
    ensures Plain(WebSocketItem(k))
  {
  }

  lemma WebSocketItemIsPlain(k: WebSocketKey)
    ensures Plain(WebSocketItem(k))
  {
    if WebSocketPlace(k) < 6 {
      EarlyWebSocketItemIsPlain(k);
    } else {
      LateWebSocketItemIsPlain(k);
    }
  }

  lemma DesktopItemIsPlain(k: DesktopKey)
    ensures Plain(DesktopItem(k))
  {
  }

  lemma ItemIsPlain(k: Key)
    ensures Plain(Item(k))
  {
    match k
    case Api(i) => ApiItemIsPlain(i);
    case Web(i) => WebItemIsPlain(i);
    case Aux(i) => AddressItemIsPlain(i);
    case Bridge(i) => AddressItemIsPlain(i);
    case Webhook(i) => WebhookItemIsPlain(i);
    case WebSocket(i) => WebSocketItemIsPlain(i);
    case Desktop(i) => DesktopItemIsPlain(i);
  }

  lemma ServiceIsPlain(k: Key)
    ensures Plain(Service(k))
  {
  }

  lemma PrefixIsPlain()
    ensures Plain(PREFIX) && PREFIX != []
  {
  }

  lemma PlainIsGood(name: string)
    requires Plain(name) && name != []
    ensures GoodName(name)
  {
    assert name[0] in name && name[|name| - 1] in name;
  }

  lemma NameIsGood(k: Key)
    ensures GoodName(Name(k))
  {
    PrefixIsPlain();
    ServiceIsPlain(k);
    ItemIsPlain(k);
    PlainIsGood(Name(k));
  }
}
