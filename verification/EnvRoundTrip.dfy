/**
 * Reading back the `.env` file that was written: the same settings exactly when no text among them would be
 * cut or stripped.
 */
module EnvRoundTrip {
  import opened Wrappers
  import opened Text
  import opened EnvFile
  import opened SettingNames
  import opened RuntimeConfig
  import opened EnvWriting

  /** The settings of a process whose environment was loaded; None when loading aborted it. */
  function LoadedSettings(loaded: Option<Env>): Option<Settings> {
    match loaded
    case None => None
    case Some(env) => Some(ReadSettings(env))
  }

  /** Writing the file, loading it into an environment, and reading the settings again. */
  function Reload(s: Settings, env: Env): Option<Settings> {
    LoadedSettings(Load(env, WriteEnvFile(s)))
  }

  // One setting

  predicate OneLine(t: string) {
    '\n' !in t
  }

  lemma DecimalIsBare(n: nat)
    ensures Bare(Decimal(n))
  {
  }

  lemma TrueIsTrue()
    ensures IsTrue("true")
  {
    TrimFixesExactlyTight("true");
    assert Lower("true") == "true";
  }

  lemma SwitchTextIsBare(b: bool)
    ensures Clean(BoolText(b)) == BoolText(b)
  {
    CleanFixesExactlyBare(BoolText(b));
  }

  lemma FalseIsNot()
    ensures !IsTrue("false")
  {
    TrimFixesExactlyTight("false");
  }

  /** What reading the API settings back rests on. */
  predicate Readable(a: ApiSettings) {
    && !Blank(a.host) && !Blank(a.baseUrl) && !Blank(a.docsUrl) && !Blank(a.docsPath)
    && !Blank(a.logMode) && !Blank(a.tokenHeader) && a.port > 0 && a.timeoutMs > 0
  }

  lemma NormalIsReadable(a: ApiSettings)
    requires IsNormalApi(a)
    ensures Readable(a)
  {
    var base := BaseUrlFor(a.host, a.port);
    VisibleIsNotBlank(base, 0);
    VisibleIsNotBlank(base + a.docsPath, 0);
    RootedIsNotBlank(a.docsPath);
  }

  /** The environment holds what loading the file gives a setting. */
  predicate IsStored(env: Env, s: Settings, k: Key) {
    Var(env, Name(k)) == Some(Clean(Shown(s, k)))
  }

  /** The keys that are read as texts. */
  predicate IsTextKey(k: Key) {
    match k
    case Api(i) => i.Host? || i.BaseUrl? || i.TokenHeader? || i.Token? || i.LogMode? || i.ScalarUrl? || i.DocsPath?
    case Web(i) => i.Host?
    case Webhook(i) => i.Host? || i.BasePath? || i.TokenHeader? || i.Token?
    case WebSocket(i) => i.Host? || i.Path? || i.TokenQuery? || i.TokenHeader? || i.Token?
    case Desktop(i) => i.ServiceName?
    case _ => false
  }

  /** A text comes back exactly when it is bare; a switch, and a number other than zero, always. */
  ghost predicate KeyComesBack(r: Reader, s: Settings, k: Key) {
    var v := Shown(s, k);
    && (IsTextKey(k) ==> (r.text(k) == v <==> Bare(v)))
    && (forall n: u16 | v == Decimal(n) && n > 0 :: r.port(k) == n)
    && (forall n: u64 | v == Decimal(n) && n > 0 :: r.number(k) == n)
    && (forall b: bool | v == BoolText(b) :: r.switch(k) == b)
  }

  /** A setting that is blank has no default. */
  predicate BlankByDefault(k: Key, v: string) {
    Blank(v) ==> DefaultText(k) == ""
  }

  lemma StoredText(stored: Option<string>, v: string, default: string)
    requires stored == Some(Clean(v))
    requires Bare(default) && (Blank(v) ==> default == "")
    ensures EnvString(stored, default) == v <==> Bare(v)
  {
    CleanFixesExactlyBare(v);
    TrimFixesExactlyTight(v);
  }

  lemma StoredNumber(stored: Option<string>, v: string, n: nat, default: nat, limit: nat)
    requires stored == Some(Clean(v)) && v == Decimal(n)
    requires 0 < n < limit && default < limit
    ensures EnvNumber(stored, default, limit) == n
  {
    DecimalIsBare(n);
    CleanFixesExactlyBare(v);
    DecimalValue(n);
  }

  lemma StoredSwitch(stored: Option<string>, v: string, b: bool, default: bool)
    requires stored == Some(Clean(v)) && v == BoolText(b)
    ensures EnvBool(stored, default) == b
  {
    SwitchTextIsBare(b);
    TrueIsTrue();
    FalseIsNot();
  }

  lemma StoredComesBack(env: Env, s: Settings, k: Key)
    requires IsStored(env, s, k)
    requires IsTextKey(k) ==> BlankByDefault(k, Shown(s, k))
    ensures KeyComesBack(EnvReader(env), s, k)
  {
    var r, v, stored := EnvReader(env), Shown(s, k), Var(env, Name(k));
    if IsTextKey(k) {
      DefaultIsBare(k);
      StoredText(stored, v, DefaultText(k));
    }
    forall n: u16 | v == Decimal(n) && n > 0 ensures r.port(k) == n {
      StoredNumber(stored, v, n, DefaultPort(k), 0x1_0000);
    }
    forall n: u64 | v == Decimal(n) && n > 0 ensures r.number(k) == n {
      StoredNumber(stored, v, n, DefaultNumber(k), 0x1_0000_0000_0000_0000);
    }
    forall b: bool | v == BoolText(b) ensures r.switch(k) == b {
      StoredSwitch(stored, v, b, if k == Web(WebKey.Enabled) then !EnvBool(Var(env, WEB_DISABLED), false) else DefaultSwitch(k));
    }
  }

  lemma DefaultIsBare(k: Key)
    ensures Bare(DefaultText(k))
  {
  }

  lemma DefaultIsOneLine(k: Key)
    ensures OneLine(DefaultText(k))
  {
  }

  lemma NormalIsBlankByDefault(s: Settings, k: Key)
    requires IsNormal(s) && IsTextKey(k)
    ensures BlankByDefault(k, Shown(s, k))
  {
    NormalIsReadable(s.api);
    RootedIsNotBlank(s.webhook.basePath);
    RootedIsNotBlank(s.websocket.path);
  }

  // Every setting of a service

  ghost predicate ComesBack(r: Reader, s: Settings) {
    forall k: Key :: KeyComesBack(r, s, k)
  }

  lemma TextReads(r: Reader, s: Settings, k: Key)
    requires ComesBack(r, s) && IsTextKey(k)
    ensures r.text(k) == Shown(s, k) <==> Bare(Shown(s, k))
  {
    assert KeyComesBack(r, s, k);
  }

  lemma PortReads(r: Reader, s: Settings, k: Key, n: u16)
    requires ComesBack(r, s) && Shown(s, k) == Decimal(n) && n > 0
    ensures r.port(k) == n
  {
    assert KeyComesBack(r, s, k);
  }

  lemma NumberReads(r: Reader, s: Settings, k: Key, n: u64)
    requires ComesBack(r, s) && Shown(s, k) == Decimal(n) && n > 0
    ensures r.number(k) == n
  {
    assert KeyComesBack(r, s, k);
  }

  lemma SwitchReads(r: Reader, s: Settings, k: Key, b: bool)
    requires ComesBack(r, s) && Shown(s, k) == BoolText(b)
    ensures r.switch(k) == b
  {
    assert KeyComesBack(r, s, k);
  }

  lemma ApiTextsRead(r: Reader, s: Settings)
    requires ComesBack(r, s)
    ensures var got := ReadApi(r);
            && (got.host == s.api.host <==> Bare(s.api.host))
            && (got.baseUrl == s.api.baseUrl <==> Bare(s.api.baseUrl))
            && (got.tokenHeader == s.api.tokenHeader <==> Bare(s.api.tokenHeader))
            && (got.token == s.api.token <==> Bare(s.api.token))
            && (got.logMode == s.api.logMode <==> Bare(s.api.logMode))
            && (got.docsUrl == s.api.docsUrl <==> Bare(s.api.docsUrl))
            && (got.docsPath == s.api.docsPath <==> Bare(s.api.docsPath))
  {
    TextReads(r, s, Api(ApiKey.Host));
    TextReads(r, s, Api(ApiKey.BaseUrl));
    TextReads(r, s, Api(ApiKey.TokenHeader));
    TextReads(r, s, Api(ApiKey.Token));
    TextReads(r, s, Api(ApiKey.LogMode));
    TextReads(r, s, Api(ApiKey.ScalarUrl));
    TextReads(r, s, Api(ApiKey.DocsPath));
  }

  lemma ApiNumbersRead(r: Reader, s: Settings)
    requires ComesBack(r, s) && s.api.port > 0 && s.api.timeoutMs > 0
    ensures ReadApi(r).port == s.api.port && ReadApi(r).timeoutMs == s.api.timeoutMs
  {
    PortReads(r, s, Api(ApiKey.Port), s.api.port);
    NumberReads(r, s, Api(ApiKey.TimeoutMs), s.api.timeoutMs);
  }

  lemma ApiSwitchesRead(r: Reader, s: Settings)
    requires ComesBack(r, s)
    ensures var got := ReadApi(r);
            && got.autoStart == s.api.autoStart && got.restartOnConfigChange == s.api.restartOnConfigChange
            && got.requireToken == s.api.requireToken && got.allowPublicNetwork == s.api.allowPublicNetwork
  {
    SwitchReads(r, s, Api(ApiKey.AutoStart), s.api.autoStart);
    SwitchReads(r, s, Api(ApiKey.RestartOnConfigChange), s.api.restartOnConfigChange);
    SwitchReads(r, s, Api(ApiKey.RequireToken), s.api.requireToken);
    SwitchReads(r, s, Api(ApiKey.AllowPublicNetwork), s.api.allowPublicNetwork);
  }

  lemma ApiMoreSwitchesRead(r: Reader, s: Settings)
    requires ComesBack(r, s)
    ensures var got := ReadApi(r);
            && got.corsEnabled == s.api.corsEnabled && got.docsPublicLocal == s.api.docsPublicLocal
            && got.openScalarAfterStart == s.api.openScalarAfterStart && got.docsEnabled == s.api.docsEnabled
  {
    SwitchReads(r, s, Api(ApiKey.Cors), s.api.corsEnabled);
    SwitchReads(r, s, Api(ApiKey.DocsPublicLocal), s.api.docsPublicLocal);
    SwitchReads(r, s, Api(ApiKey.OpenScalarAfterStart), s.api.openScalarAfterStart);
    SwitchReads(r, s, Api(ApiKey.ScalarEnabled), s.api.docsEnabled);
  }

  lemma ApiComesBack(r: Reader, s: Settings)
    requires ComesBack(r, s) && s.api.port > 0 && s.api.timeoutMs > 0
    ensures ReadApi(r) == s.api <==> ApiTexts(s.api, t => Bare(t))
  {
    ApiTextsRead(r, s);
    ApiNumbersRead(r, s);
    ApiSwitchesRead(r, s);
    ApiMoreSwitchesRead(r, s);
  }

  lemma WebComesBack(r: Reader, s: Settings)
    requires ComesBack(r, s) && s.web.port > 0
    ensures ReadWeb(r) == s.web <==> WebTexts(s.web, t => Bare(t))
  {
    SwitchReads(r, s, Web(WebKey.Enabled), s.web.enabled);
    TextReads(r, s, Web(WebKey.Host));
    PortReads(r, s, Web(WebKey.Port), s.web.port);
    SwitchReads(r, s, Web(WebKey.AutoStart), s.web.autoStart);
  }

  lemma WebhookTextsRead(r: Reader, s: Settings)
    requires ComesBack(r, s)
    ensures var got := ReadWebhook(r);
            && (got.host == s.webhook.host <==> Bare(s.webhook.host))
            && (got.basePath == s.webhook.basePath <==> Bare(s.webhook.basePath))
            && (got.tokenHeader == s.webhook.tokenHeader <==> Bare(s.webhook.tokenHeader))
            && (got.token == s.webhook.token <==> Bare(s.webhook.token))
  {
    TextReads(r, s, Webhook(WebhookKey.Host));
    TextReads(r, s, Webhook(WebhookKey.BasePath));
    TextReads(r, s, Webhook(WebhookKey.TokenHeader));
    TextReads(r, s, Webhook(WebhookKey.Token));
  }

  lemma WebhookNumbersRead(r: Reader, s: Settings)
    requires ComesBack(r, s) && s.webhook.port > 0
    ensures ReadWebhook(r).port == s.webhook.port
  {
    PortReads(r, s, Webhook(WebhookKey.Port), s.webhook.port);
  }

  lemma WebhookSwitchesRead(r: Reader, s: Settings)
    requires ComesBack(r, s)
    ensures var got := ReadWebhook(r);
            && got.enabled == s.webhook.enabled && got.autoStart == s.webhook.autoStart
            && got.tokenRequired == s.webhook.tokenRequired && got.allowLan == s.webhook.allowLan
            && got.allowExternal == s.webhook.allowExternal
  {
    SwitchReads(r, s, Webhook(WebhookKey.Enabled), s.webhook.enabled);
    SwitchReads(r, s, Webhook(WebhookKey.AutoStart), s.webhook.autoStart);
    SwitchReads(r, s, Webhook(WebhookKey.TokenRequired), s.webhook.tokenRequired);
    SwitchReads(r, s, Webhook(WebhookKey.AllowLan), s.webhook.allowLan);
    SwitchReads(r, s, Webhook(WebhookKey.AllowExternal), s.webhook.allowExternal);
  }

  lemma WebhookComesBack(r: Reader, s: Settings)
    requires ComesBack(r, s) && s.webhook.port > 0
    ensures ReadWebhook(r) == s.webhook <==> WebhookTexts(s.webhook, t => Bare(t))
  {
    WebhookTextsRead(r, s);
    WebhookNumbersRead(r, s);
    WebhookSwitchesRead(r, s);
  }

  lemma WebSocketTextsRead(r: Reader, s: Settings)
    requires ComesBack(r, s)
    ensures var got := ReadWebSocket(r);
            && (got.host == s.websocket.host <==> Bare(s.websocket.host))
            && (got.path == s.websocket.path <==> Bare(s.websocket.path))
            && (got.tokenQuery == s.websocket.tokenQuery <==> Bare(s.websocket.tokenQuery))
            && (got.tokenHeader == s.websocket.tokenHeader <==> Bare(s.websocket.tokenHeader))
            && (got.token == s.websocket.token <==> Bare(s.websocket.token))
  {
    TextReads(r, s, WebSocket(WebSocketKey.Host));
    TextReads(r, s, WebSocket(WebSocketKey.Path));
    TextReads(r, s, WebSocket(WebSocketKey.TokenQuery));
    TextReads(r, s, WebSocket(WebSocketKey.TokenHeader));
    TextReads(r, s, WebSocket(WebSocketKey.Token));
  }

  lemma WebSocketNumbersRead(r: Reader, s: Settings)
    requires ComesBack(r, s) && s.websocket.port > 0 && s.websocket.heartbeatSeconds > 0
    ensures ReadWebSocket(r).port == s.websocket.port && ReadWebSocket(r).heartbeatSeconds == s.websocket.heartbeatSeconds
  {
    PortReads(r, s, WebSocket(WebSocketKey.Port), s.websocket.port);
    NumberReads(r, s, WebSocket(WebSocketKey.HeartbeatSeconds), s.websocket.heartbeatSeconds);
  }

  lemma WebSocketSwitchesRead(r: Reader, s: Settings)
    requires ComesBack(r, s)
    ensures var got := ReadWebSocket(r);
            && got.enabled == s.websocket.enabled && got.autoStart == s.websocket.autoStart
            && got.tokenRequired == s.websocket.tokenRequired && got.allowLan == s.websocket.allowLan
            && got.allowExternal == s.websocket.allowExternal
  {
    SwitchReads(r, s, WebSocket(WebSocketKey.Enabled), s.websocket.enabled);
    SwitchReads(r, s, WebSocket(WebSocketKey.AutoStart), s.websocket.autoStart);
    SwitchReads(r, s, WebSocket(WebSocketKey.TokenRequired), s.websocket.tokenRequired);
    SwitchReads(r, s, WebSocket(WebSocketKey.AllowLan), s.websocket.allowLan);
    SwitchReads(r, s, WebSocket(WebSocketKey.AllowExternal), s.websocket.allowExternal);
  }

  lemma WebSocketComesBack(r: Reader, s: Settings)
    requires ComesBack(r, s) && s.websocket.port > 0 && s.websocket.heartbeatSeconds > 0
    ensures ReadWebSocket(r) == s.websocket <==> WebSocketTexts(s.websocket, t => Bare(t))
  {
    WebSocketTextsRead(r, s);
    WebSocketNumbersRead(r, s);
    WebSocketSwitchesRead(r, s);
  }

  lemma DesktopComesBack(r: Reader, s: Settings)
    requires ComesBack(r, s)
    ensures ReadDesktop(r) == s.desktop <==> DesktopTexts(s.desktop, t => Bare(t))
  {
    SwitchReads(r, s, Desktop(DesktopKey.TrayEnabled), s.desktop.trayEnabled);
    SwitchReads(r, s, Desktop(DesktopKey.TrayMinimizeToTray), s.desktop.minimizeToTray);
    SwitchReads(r, s, Desktop(DesktopKey.TrayCloseToTray), s.desktop.closeToTray);
    SwitchReads(r, s, Desktop(DesktopKey.StartWithWindows), s.desktop.startWithWindows);
    SwitchReads(r, s, Desktop(DesktopKey.ServicesAutoStart), s.desktop.servicesAutoStart);
    TextReads(r, s, Desktop(DesktopKey.ServiceName));
  }

  // The whole file

  /** A text that survives the file: on one line, with nothing to strip at its ends, and without NUL. */
  predicate Safe(t: string) {
    OneLine(t) && Bare(t) && NUL !in t
  }

  lemma StoredSettingsComeBack(env: Env, s: Settings)
    requires IsNormal(s)
    requires forall k: Key :: IsStored(env, s, k)
    ensures ReadSettings(env) == s <==> Texts(s, t => Bare(t))
  {
    var r := EnvReader(env);
    assert ComesBack(r, s) by {
      forall k: Key ensures KeyComesBack(r, s, k) {
        if IsTextKey(k) {
          NormalIsBlankByDefault(s, k);
        }
        StoredComesBack(env, s, k);
      }
    }
    PartsComeBack(r, s);
  }

  lemma PartsComeBack(r: Reader, s: Settings)
    requires IsNormal(s) && ComesBack(r, s)
    ensures ReadWith(r) == s <==> Texts(s, t => Bare(t))
  {
    ApiComesBack(r, s);
    WebComesBack(r, s);
    WebhookComesBack(r, s);
    WebSocketComesBack(r, s);
    DesktopComesBack(r, s);
    AddressesFollow(r);
  }

  lemma AddressesFollow(r: Reader)
    ensures ReadAuxiliary(r) == Address(ReadWebhook(r).host, ReadWebhook(r).port)
    ensures ReadBridge(r) == Address(ReadWebSocket(r).host, ReadWebSocket(r).port)
  {
  }

  lemma WrittenIsPrintable(s: Settings, env: Env)
    requires forall k: Key :: Name(k) !in env
    requires AllShown(s, t => OneLine(t))
    ensures Printable(Written(s), env)
  {
    var w := Written(s);
    forall i | 0 <= i < |w| ensures GoodName(w[i].0) && w[i].0 !in env && '\n' !in w[i].1 {
      NameIsGood(KeyAt(i));
      assert OneLine(Shown(s, KeyAt(i)));
    }
    forall i, j | 0 <= i < j < |w| ensures w[i].0 != w[j].0 {
      ListedOnce(KeyAt(i), i);
      ListedOnce(KeyAt(i), j);
      NamesAreDistinct(KeyAt(i), KeyAt(j));
    }
  }

  lemma HeldIsStored(s: Settings, env: Env, k: Key)
    requires Holds(env, Written(s))
    ensures IsStored(env, s, k)
  {
    var i := Place(k);
    ListedOnce(k, i);
    assert Written(s)[i] == (Name(k), Shown(s, k));
  }

  lemma NoNulByShown(s: Settings)
    ensures NoNul(Written(s)) <==> AllShown(s, t => NUL !in Clean(t))
  {
    if NoNul(Written(s)) {
      forall k: Key ensures NUL !in Clean(Shown(s, k)) {
        ListedOnce(k, Place(k));
        assert Written(s)[Place(k)] == (Name(k), Shown(s, k));
      }
    }
    if AllShown(s, t => NUL !in Clean(t)) {
      forall i | 0 <= i < COUNT ensures NUL !in Clean(Written(s)[i].1) {
        assert (t => NUL !in Clean(t))(Shown(s, KeyAt(i)));
      }
    }
  }

  lemma JoinedComment(a: string, b: string)
    requires StartsWith(a, '#') && OneLine(a) && OneLine(b)
    ensures StartsWith(a + b, '#') && OneLine(a + b)
  {
  }

  lemma FirstLineIsOneLine()
    ensures OneLine(FIRST) && StartsWith(FIRST, '#')
  {
    JoinedComment("# Tunnara Console - ", "gerado pela tela Sistema e parâmetros");
  }

  lemma LastLineIsOneLine()
    ensures OneLine(LAST) && StartsWith(LAST, '#')
  {
    JoinedComment("# Informe TUNNARA_CONSOLE_API_TOKEN", " via secret/env real em produção;");
    JoinedComment("# Informe TUNNARA_CONSOLE_API_TOKEN" + " via secret/env real em produção;", " não commite tokens.");
  }

  lemma FirstLineIsSkipped(env: Env, text: string)
    ensures Load(env, FIRST + "\n" + text) == Load(env, text)
  {
    FirstLineIsOneLine();
    CommentLineIsSkipped(env, FIRST, text);
  }

  lemma CommentLineIsSkipped(env: Env, comment: string, text: string)
    requires '\n' !in comment && StartsWith(comment, '#')
    ensures Load(env, comment + "\n" + text) == Load(env, text)
  {
    assert comment + "\n" + text == comment + ['\n'] + text;
    SplitAppend(comment, '\n', text);
    SplitWhole(comment, '\n');
    CommentIsSkipped(comment);
    var lines := Split(comment + ['\n'] + text, '\n');
    assert lines[0] == comment && lines[1..] == Split(text, '\n');
  }

  // Texts on one line each

  lemma PrintedHasNo(n: nat, c: char)
    requires !IsDigit(c)
    ensures c !in Decimal(n) && c !in Clean(Decimal(n))
  {
    var d := Decimal(n);
    assert forall x | x in d :: IsDigit(x);
    CleansOnly(d, c);
  }

  lemma PrintsOneLine()
    ensures PrintsWith(t => OneLine(t))
  {
    forall n: nat ensures OneLine(Decimal(n)) {
      PrintedHasNo(n, '\n');
    }
  }

  lemma PrintsNoNul()
    ensures PrintsWith(t => NUL !in Clean(t))
  {
    forall n: nat ensures NUL !in Clean(Decimal(n)) {
      PrintedHasNo(n, NUL);
    }
    assert NUL !in "true" && NUL !in "false";
    CleansOnly("true", NUL);
    CleansOnly("false", NUL);
  }

  /** Loading the file stores every setting, and aborts exactly when a cleaned text has a NUL. */
  lemma WrittenLoads(s: Settings, env: Env)
    requires forall k: Key :: Name(k) !in env
    requires Texts(s, t => OneLine(t))
    ensures Load(env, WriteEnvFile(s)).Some? <==> Texts(s, t => NUL !in Clean(t))
    ensures Load(env, WriteEnvFile(s)).Some? ==> forall k: Key :: IsStored(Load(env, WriteEnvFile(s)).value, s, k)
  {
    PrintsOneLine();
    PrintsNoNul();
    ShownByText(s, t => OneLine(t));
    ShownByText(s, t => NUL !in Clean(t));
    WrittenIsPrintable(s, env);
    LastLineIsOneLine();
    FirstLineIsSkipped(env, Print(Written(s), LAST));
    PrintedListLoads(env, Written(s), LAST);
    NoNulByShown(s);
    var r := Load(env, WriteEnvFile(s));
    if r.Some? {
      forall k: Key ensures IsStored(r.value, s, k) {
        HeldIsStored(s, r.value, k);
      }
    }
  }

  lemma LoadedComesBack(s: Settings, loaded: Option<Env>)
    requires IsNormal(s)
    requires Texts(s, t => OneLine(t))
    requires loaded.Some? <==> Texts(s, t => NUL !in Clean(t))
    requires loaded.Some? ==> forall k: Key :: IsStored(loaded.value, s, k)
    ensures LoadedSettings(loaded) == Some(s) <==> Texts(s, t => Safe(t))
  {
    SafeTexts(s);
    if loaded.Some? {
      StoredSettingsComeBack(loaded.value, s);
    }
  }

  /** If every text is on one line, the settings come back exactly when every text is safe. */
  lemma OneLineRoundTrip(s: Settings, env: Env)
    requires IsNormal(s)
    requires forall k: Key :: Name(k) !in env
    requires Texts(s, t => OneLine(t))
    ensures Reload(s, env) == Some(s) <==> Texts(s, t => Safe(t))
  {
    WrittenLoads(s, env);
    LoadedComesBack(s, Load(env, WriteEnvFile(s)));
  }

  /** A bare text has a NUL exactly when its cleaned form does. */
  lemma SafeText(t: string)
    ensures Safe(t) <==> OneLine(t) && Bare(t) && NUL !in Clean(t)
  {
    CleanFixesExactlyBare(t);
  }

  lemma TextsBoth(s: Settings, p: string -> bool, q: string -> bool, both: string -> bool)
    requires forall t :: both(t) <==> p(t) && q(t)
    ensures Texts(s, both) <==> Texts(s, p) && Texts(s, q)
  {
  }

  lemma SafeTexts(s: Settings)
    ensures Texts(s, t => Safe(t))
            <==> Texts(s, t => OneLine(t)) && Texts(s, t => Bare(t)) && Texts(s, t => NUL !in Clean(t))
  {
    forall t: string ensures Safe(t) <==> OneLine(t) && Bare(t) && NUL !in Clean(t) {
      SafeText(t);
    }
    var plain := (t: string) => OneLine(t) && Bare(t);
    TextsBoth(s, t => OneLine(t), t => Bare(t), plain);
    TextsBoth(s, plain, t => NUL !in Clean(t), t => Safe(t));
  }

  // Texts that run over several lines

  ghost predicate ReadsOneLine(r: Reader) {
    forall k: Key :: OneLine(r.text(k))
  }

  lemma LoadedReadsOneLine(s: Settings, env: Env, loaded: Env)
    requires forall k: Key :: Name(k) !in env
    requires Load(env, WriteEnvFile(s)) == Some(loaded)
    ensures ReadsOneLine(EnvReader(loaded))
  {
    forall k: Key ensures OneLine(EnvReader(loaded).text(k)) {
      LoadedValuesHaveNoBreak(env, Split(WriteEnvFile(s), '\n'), Name(k));
      DefaultIsOneLine(k);
      assert EnvReader(loaded).text(k) == EnvString(Var(loaded, Name(k)), DefaultText(k));
    }
  }

  /** Whatever lines a text injects into the file, what is read from the file is on one line. */
  lemma SettingsReadOneLine(r: Reader)
    requires ReadsOneLine(r)
    ensures Texts(ReadWith(r), t => OneLine(t))
  {
  }

  /** Settings with a text over several lines never come back. */
  lemma BrokenTextIsLost(s: Settings, env: Env)
    requires forall k: Key :: Name(k) !in env
    requires !Texts(s, t => OneLine(t))
    ensures Reload(s, env) != Some(s)
  {
    var r := Load(env, WriteEnvFile(s));
    if r.Some? {
      LoadedReadsOneLine(s, env, r.value);
      SettingsReadOneLine(EnvReader(r.value));
    }
  }

  /**
   * Writing normal settings and loading the file into an environment with none of its names gives the same
   * settings, field by field, exactly when every text among them is safe.
   */
  lemma RoundTripIffSafe(s: Settings, env: Env)
    requires IsNormal(s)
    requires forall k: Key :: Name(k) !in env
    ensures Reload(s, env) == Some(s) <==> Texts(s, t => Safe(t))
  {
    if Texts(s, t => OneLine(t)) {
      OneLineRoundTrip(s, env);
    } else {
      SafeTexts(s);
      BrokenTextIsLost(s, env);
    }
  }

  /** For every record at all: saving normalises it, and what is saved comes back exactly when its texts are safe. */
  lemma SavedSettingsComeBack(s: Settings, env: Env)
    requires forall k: Key :: Name(k) !in env
    ensures Reload(Normalize(s), env) == Some(Normalize(s)) <==> Texts(Normalize(s), t => Safe(t))
  {
    NormalizeGivesNormal(s);
    RoundTripIffSafe(Normalize(s), env);
  }
}
