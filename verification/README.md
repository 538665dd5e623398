# Tunnara: verified models

These Dafny modules model the parts of Tunnara that hold state, parse text or do arithmetic, and prove what
they promise. Each file is one module; `dafny verify dfyconfig.toml` checks all of them.

* **Background services** (`ServiceLifecycle`, `ServiceProgress`, `ServiceRuntime`). The internal API, the web
  port, the webhook service and the WebSocket service share one protocol: a start lock, a slot for the running
  handle behind a lock of its own, and a stop that takes only the slot lock. The protocol is a state machine over
  any number of starters and stoppers; one step is one region the code runs under a lock, or one spawn or join. A
  class carries out one start or stop at a time and records each region as a step of the protocol.
* **License decisions** (`LicenseService`, `LicenseEvaluation`, `OfflineCache`, `OfflineDevices`). Checks
  against the licensing server, the evaluation that re-enters itself after registering a company or a device,
  the cache that answers when the server does not, and whose verdict such an answer is. The server and the
  clock are a world state every call may change.
* **Settings and the `.env` file** (`EnvFile`, `SettingNames`, `RuntimeConfig`, `EnvWriting`, `EnvRoundTrip`,
  `EnvInjection`). The normaliser, the printer, the line loader and the typed readers, with all 54 names of the
  file. The flat settings record is grouped by service.
* **Admission over time** (`ProviderLimiter`, `ProviderStaleness`, `ProviderLag`, `NonceTable`). The per-provider
  request limiter of the company lookup, with times that come late or out of order, and the nonce table behind
  agent authentication.
* **WireGuard text** (`WgQuickParser`, `WgQuickMeaning`, `WgQuickPrinter`, `WgQuickLists`). The single-pass
  parser, a meaning of the text that does not mention the pass, a printer, and lists over several lines. Key,
  address, server and endpoint parsers, letter classes and lower-casing are parameters.
* **Weighted routing** (`RouteResolver`), **the C client's buffers** (`SdkBuffers`), **argument aliases and
  log redaction** (`ArgAliases`, `LogRedaction`), **the browser's table store** (`WebStore`) and **the webhook
  event log** (`WebhookLog`).

`Wrappers` and `Text` hold what several modules share.

Code that changes things step by step is a class or a method with loops, proved equal to a specification
function or to a stated property; the theorems are about those functions and about runs of them.

## What the proofs say that the code does not

* A web port whose main thread fails to spawn never joins its loopback mirror. The mirror is told to stop, by
  its dropped sender, but nobody waits for it. This is the only way any of the four services fails to join a
  thread, and the only threads never told to stop are those in the slot or with a call in flight. The protocol
  never gets stuck: while a call is in flight some call can take a step, and each takes at most 13.
* The offline cache is keyed by document alone, so an offline answer is the verdict on the device of the last
  online check, whichever device asks. It is always right for the asking device exactly when both devices have
  the same key, or no device check is enabled, or no such answer is ever given. With the default limit of 15
  days it is given while fewer than 16 full days have passed.
* An evaluation ends on every server exactly when neither the company nor the device registration switch is on:
  a server that accepts registrations and does not show them makes it re-enter itself forever.
* The settings come back from their `.env` file exactly when no text has a line feed, a NUL, or white space or
  a quote at an end. A text with a line feed adds lines of its own to the file: without one a file sets the 54
  settings and nothing else, with one it can set any variable whose name the format can express.
* The request limiter admits up to twice its limit in a minute of presented times, and this is reached, as long
  as no call presents a time before the start of the window it meets; a clock that never falls back ensures this.
  One second before that start is enough to admit three times the limit. If no call meets a cooldown, one second
  is tolerated, and for limits from 2 two seconds are not.
* A lookup reads the clock once and presents that time to every provider it tries, so it may run later, and times
  may come out of order. If no time is before its window, lookups up to m minutes late make at most 2(m + 1) times
  the limit in an actual minute. In any order, the lookups of a minute are bounded at all exactly when each is
  less than a minute late.
* With one clock read per call, one authentication message is accepted twice only at the first and the last
  second of its window. With several reads, a call is accepted exactly when it purges two minutes or more after
  the insert of every earlier acceptance; so a second call can also be accepted by stalling before its purge.
* The id of a present record can be given out again exactly when its table's counter is not set. In reachable
  states that happens in `departamentos` and `funcoes` only, which start with rows but without a counter.

## Model

| member | source | states |
|---|---|---|
| ServiceLifecycle.SlotEmptyAtStore | apps/console/src-tauri/src/native_webhook/server.rs:66-178 | in every interleaving of starters and stoppers, a starter that is about to store its handle finds the slot empty, so none is overwritten |
| ServiceLifecycle.OneStarterAtATime | apps/console/src-tauri/src/native_webhook/server.rs:70-72 | two callers between the start lock and their return are the same caller, in every interleaving |
| ServiceLifecycle.EveryServerInOnePlace | apps/console/src-tauri/src/native_websocket/server.rs:80-222 | every thread ever spawned, main or mirror, is in exactly one place: the slot, one caller in flight, joined, or detached |
| ServiceLifecycle.NothingDetachedUnlessMirrorAbandoned | apps/console/src-tauri/src/internal_api/web_server.rs:169-194 | a thread is detached if and only if some main spawn failed with a mirror already up; this never happens outside the web port |
| ServiceLifecycle.WebMirrorCanBeAbandoned | apps/console/src-tauri/src/internal_api/web_server.rs:171-181 | a run of the web port in which the mirror is spawned, the main spawn fails, and the mirror is told to stop but left unjoined |
| ServiceLifecycle.ToldToStop | apps/console/src-tauri/src/internal_api/web_server.rs:241-264 | in every interleaving a joined or detached thread has been told to stop, by a message or a dropped sender; one in the slot or with the starter that spawned it has not; one in a handle being stopped only if it is joined next |
| ServiceLifecycle.QuietServersRun | apps/console/src-tauri/src/native_webhook/server.rs:180-204 | with no call in flight the threads not told to stop are exactly those in the slot |
| ServiceLifecycle.QuiescentAccounting | apps/console/src-tauri/src/internal_api/server.rs:90-264 | with no caller in flight the start lock is free and every thread is in the slot, joined or detached |
| ServiceLifecycle.StopJoinsWhatItTook | apps/console/src-tauri/src/native_webhook/server.rs:180-204 | a stop that took a handle has joined its main thread and mirror by the time it returns, whatever the others do meanwhile |
| ServiceLifecycle.LockInvKept | apps/console/src-tauri/src/internal_api/web_server.rs:101-217 | every step keeps: one lock holder at most, and from the taking of an old handle to the store the slot is empty |
| ServiceProgress.NeverStuck | apps/console/src-tauri/src/native_webhook/server.rs:66-204 | in every interleaving, while a call is in flight some call can take a step without a new call coming in |
| ServiceProgress.StepsAreBounded | apps/console/src-tauri/src/native_webhook/server.rs:66-204 | from every reachable state, however they interleave, the calls in flight take at most 13 steps each |
| ServiceProgress.MaximalRunsReturn | apps/console/src-tauri/src/internal_api/web_server.rs:101-266 | after any steps of the calls in flight, none can take another if and only if every call has returned |
| ServiceRuntime.Runtime.StartBackground | apps/console/src-tauri/src/native_webhook/server.rs:66-178 | one start, outcome by outcome: when it is refused as invalid, what the slot then holds, what was joined and in which order, and that only a failing web start detaches a thread; every region it runs is an enabled step of the protocol |
| ServiceRuntime.Runtime.StopBackground | apps/console/src-tauri/src/native_websocket/server.rs:190-222 | a stop empties the slot and joins exactly what it held |
| ServiceRuntime.Runtime.TakeAndJoin | apps/console/src-tauri/src/internal_api/web_server.rs:241-266 | the taking and joining shared by stops and by starts that replace a service: the mirror first, then the main thread |
| ServiceRuntime.Runtime.SpawnMirrorFirst | apps/console/src-tauri/src/internal_api/web_server.rs:169-181 | the web port's order: the handle is complete if the main thread runs, and otherwise only a wanted mirror that came up is detached |
| ServiceRuntime.ExecutionIsRun | apps/console/src-tauri/src/internal_api/server.rs:90-264 | what the class records is a run of the protocol from its initial state, so the theorems about runs apply to it |
| LicenseService.GenericLicenseService.CheckLicense | apps/console/src-tauri/generic-license-tauri/src/service.rs:27-77 | a whole check: the answer, the new world and the new cache are those of the specification function the theorems below are about |
| LicenseService.GenericLicenseService.EvaluateLegacy | apps/console/src-tauri/generic-license-tauri/src/service.rs:175-374 | the self-calling evaluation with its registrations, cache writes and clock reads, equal to its specification for any bound on activations |
| LicenseService.GenericLicenseService.TryOfflineCacheOrFail | apps/console/src-tauri/generic-license-tauri/src/service.rs:79-173 | the fallback: no entry, expired entry, cached decision, cached payload, or the online error |
| LicenseService.GenericLicenseService.CacheDecision | apps/console/src-tauri/generic-license-tauri/src/cache.rs:37-51 | replaces the whole entry of the document, stamped with the current time |
| LicenseService.FindDevice | apps/console/src-tauri/generic-license-tauri/src/service.rs:442-448 | a found device has the key, and none is reported only if no device has it |
| LicenseEvaluation.AtMostTwoReentries | apps/console/src-tauri/generic-license-tauri/src/service.rs:175-374 | if successful registrations are effective and durable, every evaluation ends with at most two re-entries, one company and one device registration, and more allowed activations change nothing |
| LicenseEvaluation.EvaluationEnds | apps/console/src-tauri/generic-license-tauri/src/service.rs:183-304 | from any point with some registrations already made, each one still pending costs at most one re-entry |
| LicenseEvaluation.AllowedIffPasses | apps/console/src-tauri/generic-license-tauri/src/service.rs:208-374 | the verdict is "allowed" if and only if the final payload passes the found, not blocked, not expired and device checks that the configuration enables; on every server |
| LicenseEvaluation.EndsOnEveryServerIff | apps/console/src-tauri/generic-license-tauri/src/service.rs:183-304 | an evaluation ends on every server and from every payload if and only if neither the company nor the device registration switch, from the input or else the configuration, is on |
| LicenseEvaluation.NoRegistrationNoReentry | apps/console/src-tauri/generic-license-tauri/src/service.rs:175-374 | with both switches off one activation is enough on every server, and nothing is registered |
| LicenseEvaluation.ForgetfulServerNeverEnds | apps/console/src-tauri/generic-license-tauri/src/service.rs:183-207 | a server that accepts company registrations but never shows them makes the evaluation exceed every number of activations |
| LicenseEvaluation.DeviceForgettingServerNeverEnds | apps/console/src-tauri/generic-license-tauri/src/service.rs:264-304 | so does a server that accepts device registrations and never lists the device |
| LicenseEvaluation.SteadyServersForget | apps/console/src-tauri/generic-license-tauri/src/service.rs:183-304 | two concrete servers that forget so |
| LicenseEvaluation.MoreFuelSameResult | apps/console/src-tauri/generic-license-tauri/src/service.rs:175-374 | a finished evaluation is the same under every larger bound, so the bound is no part of the result |
| OfflineCache.OfflineAnswers | apps/console/src-tauri/generic-license-tauri/src/service.rs:79-119 | in every history of checks with a monotone clock, a check that falls back repeats the last online decision for its document (but for source, offline flag and a filled-in reason) if and only if less than the limit plus one full days have passed since it was stored, whatever offline answers came between; otherwise it fails with no cache or expired cache |
| OfflineCache.CacheHoldsLastOnline | apps/console/src-tauri/generic-license-tauri/src/cache.rs:21-86 | at every point of a history the cache holds, for each document, exactly the last online decision and its time |
| OfflineCache.CheckEffects | apps/console/src-tauri/generic-license-tauri/src/service.rs:27-77 | a check changes the cache only by storing its own fresh decision under its document; a fallback or refused check changes nothing |
| OfflineCache.EvaluateEffect | apps/console/src-tauri/generic-license-tauri/src/service.rs:175-374 | an evaluation never touches the entry of another document and never moves time back |
| OfflineCache.PayloadEntryAnswers | apps/console/src-tauri/generic-license-tauri/src/service.rs:121-170 | an answer from an entry that holds a payload is a verdict for the empty device key; it leaves the cache as it is without registrations, and otherwise stores the new payload under a later time, which moves the deadline |
| OfflineDevices.OfflineAnswerIsOnlineDevices | apps/console/src-tauri/generic-license-tauri/src/service.rs:112-119 | in every history an offline answer is the verdict on its payload for the device key of the last online check; a device it names is the asking one if and only if that check used the asking key |
| OfflineDevices.AlwaysRightIff | apps/console/src-tauri/generic-license-tauri/src/service.rs:79-119 | offline answers are the right verdict for the asking device in every history of every server if and only if the keys are the same, or no device check is enabled, or no answer is ever given |
| OfflineDevices.RightForAsking | apps/console/src-tauri/generic-license-tauri/src/service.rs:79-119 | under that condition, for every kind of server: allowed if and only if the payload passes the checks for the asking device |
| OfflineDevices.OtherDevicesVerdict | apps/console/src-tauri/generic-license-tauri/src/service.rs:79-119 | otherwise, for any two such keys: one device is allowed online, the server goes down, and the other, which fails the checks, is answered that it is allowed, with the first device named if devices must be known |
| OfflineDevices.SharesVerdictIff | apps/console/src-tauri/generic-license-tauri/src/service.rs:227-325 | two device keys get the same verdict on every payload at every time if and only if they are equal or no device check is enabled |
| EnvFile.Environment.LoadEnvFile | apps/console/src-tauri/src/runtime_config.rs:235-258 | the loader loop: the final environment is that of the line-by-line specification, and it aborts exactly when that does |
| EnvFile.PrintedListLoads | apps/console/src-tauri/src/runtime_config.rs:235-258 | loading any printed list of distinct new names with one-line values sets each name to its cleaned value, keeps every variable there was, and adds no other; it aborts if and only if a cleaned value has a NUL |
| EnvFile.CleanFixesExactlyBare | apps/console/src-tauri/src/runtime_config.rs:246-252 | a value survives trimming and quote stripping if and only if it has no white space or quote at an end |
| EnvFile.LoadedValuesHaveNoBreak | apps/console/src-tauri/src/runtime_config.rs:240-257 | whatever the file says, no variable it sets gets a value with a line feed |
| EnvFile.LineParses | apps/console/src-tauri/src/runtime_config.rs:241-252 | a printed line gives back its name and its cleaned value |
| EnvFile.LineInValue | apps/console/src-tauri/src/runtime_config.rs:480-547 | a value followed by a line feed and a line prints, anywhere in a list, like the value and an entry of its own |
| EnvFile.AddedNamesAreGood | apps/console/src-tauri/src/runtime_config.rs:240-257 | every variable a file adds has a trimmed, non-empty name without equals sign, line feed, NUL or leading hash |
| EnvInjection.OneLineTextsSetOnlySettings | apps/console/src-tauri/src/runtime_config.rs:422-547 | if every text of the record is on one line, its file leaves an environment with what was there and the 54 settings, no more |
| EnvInjection.TokenSetsAnyName | apps/console/src-tauri/src/runtime_config.rs:422-547 | for every normal record with one-line texts and every expressible name that is no setting, a normal record that differs in its API token alone sets that name to the cleaned form of any one-line value, NUL excepted, and loads like the first otherwise |
| EnvInjection.CanBeSetIffGood | apps/console/src-tauri/src/runtime_config.rs:235-547 | a variable the environment lacks is set by the file of some normal record if and only if its name is expressible |
| SettingNames.NamesAreDistinct | apps/console/src-tauri/src/runtime_config.rs:422-478 | no two settings of the file share a name |
| SettingNames.ListedOnce | apps/console/src-tauri/src/runtime_config.rs:422-478 | the file lists each of its 54 names at exactly one place |
| RuntimeConfig.RuntimeSettings.NormalizeRuntimeSettings | apps/console/src-tauri/src/runtime_config.rs:706-811 | rewrites the settings in place to the normal form of the old ones |
| RuntimeConfig.NormalizeIdempotent | apps/console/src-tauri/src/runtime_config.rs:706-811 | normalising twice is normalising once on every record, recomputed URLs included |
| RuntimeConfig.NormalIffFixed | apps/console/src-tauri/src/runtime_config.rs:706-811 | the records normalising leaves alone are exactly those with filled hosts, paths and headers, nonzero ports and numbers, switches that follow wildcard hosts, and URLs that are either not stale or the derived ones |
| RuntimeConfig.NormalizeGivesNormal | apps/console/src-tauri/src/runtime_config.rs:706-811 | every record normalises to such a record |
| EnvRoundTrip.RoundTripIffSafe | apps/console/src-tauri/src/runtime_config.rs:422-547 | for every normal record, writing the file, loading it into an environment with none of its names and reading the settings gives back the same record, field by field, if and only if every text in it is safe |
| EnvRoundTrip.SavedSettingsComeBack | apps/console/src-tauri/src/runtime_config.rs:310-345 | the same for any record at all once normalised, as saving does |
| EnvRoundTrip.BrokenTextIsLost | apps/console/src-tauri/src/runtime_config.rs:235-258 | a record with a line feed in any text never comes back, whatever lines that text injects |
| EnvRoundTrip.StoredSettingsComeBack | apps/console/src-tauri/src/runtime_config.rs:149-219 | from an environment holding the cleaned texts, the defaults are the record if and only if every text is bare; numbers and switches always return |
| EnvWriting.ShownByText | apps/console/src-tauri/src/runtime_config.rs:422-534 | what holds of every printed number and switch holds of everything the file shows if and only if it holds of every text of the record |
| ProviderLimiter.LookupRuntime.ProviderCanRun | apps/console/src-tauri/src/commands/companies.rs:801-834 | the verdict and the provider's whole new state; other providers keep theirs |
| ProviderLimiter.LookupRuntime.PurgeOldRequests | apps/console/src-tauri/src/commands/companies.rs:786-795 | the purging loop removes exactly the leading requests that are at least 60 seconds old |
| ProviderLimiter.LookupRuntime.ProviderMarkCooldown | apps/console/src-tauri/src/commands/companies.rs:836-851 | sets the cooldown, creating the provider if it is new, and changes nothing else |
| ProviderLimiter.AtMostTwiceTheLimitPerMinute | apps/console/src-tauri/src/commands/companies.rs:801-834 | over every run with a monotone clock, any 60-second interval of presented times admits at most 2L requests of a provider |
| ProviderLimiter.AtMostTwiceWithoutStaleCalls | apps/console/src-tauri/src/commands/companies.rs:801-834 | the same over every run, in any order of times, in which no call for the provider is before the start of the window it meets |
| ProviderLimiter.TwiceTheLimitIsReached | apps/console/src-tauri/src/commands/companies.rs:815-833 | a monotone run for every limit and provider, in which the one mark answers a lookup, that admits exactly 2L requests in one minute |
| ProviderLimiter.QueueStaysInWindow | apps/console/src-tauri/src/commands/companies.rs:815-834 | after every monotone run the queue lies in the 60 seconds from the window start and has at most L entries |
| ProviderLimiter.PurgeNeverRemoves | apps/console/src-tauri/src/commands/companies.rs:815-819 | under a monotone clock the purge inside an admission never removes a request |
| ProviderLimiter.ProvidersAreIndependent | apps/console/src-tauri/src/commands/companies.rs:807-814 | what a provider admits depends only on the calls that name it |
| ProviderLimiter.CooldownRefuses | apps/console/src-tauri/src/commands/companies.rs:820-851 | after a cooldown is marked and until the provider is marked again, nothing with a time before its end is admitted, over every run and in any order of times |
| ProviderLimiter.LaterMarkShortens | apps/console/src-tauri/src/commands/companies.rs:836-851 | a second mark with a shorter cooldown ends the first early |
| ProviderStaleness.BoundedIffFresh | apps/console/src-tauri/src/commands/companies.rs:801-851 | for every limit from 1: all runs whose calls are at most d seconds before their window, and whose marks each answer one admitted lookup with the default cooldown, stay within 2L if and only if d is 0 |
| ProviderStaleness.OneSecondSuffices | apps/console/src-tauri/src/commands/companies.rs:801-976 | for every limit from 1 a run of that kind, with one second of staleness, that admits 3L requests in one minute |
| ProviderStaleness.BoundedUncooledIffOneSecond | apps/console/src-tauri/src/commands/companies.rs:801-851 | for every limit from 2: all runs, with any marks, whose calls are at most d seconds before their window and meet no cooldown, stay within 2L if and only if d is at most 1 |
| ProviderStaleness.TwoSecondsSuffice | apps/console/src-tauri/src/commands/companies.rs:801-851 | for every limit from 2 a run of that kind, with two seconds of staleness, that admits 2L + 1 requests in one minute |
| ProviderLag.LateLookupsPerMinute | apps/console/src-tauri/src/commands/companies.rs:910-976 | if no call presents a time before its window and lookups run up to m minutes after the time they present, an actual minute sees at most 2L(m + 1) of them |
| ProviderLag.BoundedIffUnderAMinute | apps/console/src-tauri/src/commands/companies.rs:910-976 | with times in any order and lookups at most d seconds late, some number bounds the lookups of every actual minute of every run if and only if d is below 60; for every limit from 1 |
| ProviderLag.UnorderedLateLookups | apps/console/src-tauri/src/commands/companies.rs:910-976 | for every limit from 1 and every n a run with lookups at most a minute late, one after the other, and marks that answer lookups, that asks the provider nL times in one minute |
| ProviderLag.UnderAMinuteLate | apps/console/src-tauri/src/commands/companies.rs:801-834 | with lookups d seconds late at most and d below 60, in any order, an actual minute sees at most 3L(60 + d) of them |
| NonceTable.AgentProofVerifier.Verify | apps/control-api/app/Support/AgentProofVerifier.php:10-49 | accepts exactly the calls that pass every check, and leaves the table purged and extended accordingly |
| NonceTable.AcceptancesAreTwoMinutesApart | apps/control-api/app/Support/AgentProofVerifier.php:36-48 | two acceptances of one agent and nonce are at least 120 seconds apart, from the first insertion to the later purge |
| NonceTable.ReplayOnlyAtBothEdges | apps/control-api/app/Support/AgentProofVerifier.php:16-48 | with one clock read per call the same hello is accepted twice only at exactly its timestamp minus 60 and plus 60 seconds |
| NonceTable.NeverAcceptedThrice | apps/control-api/app/Support/AgentProofVerifier.php:16-48 | with one clock read per call no hello is accepted three times |
| NonceTable.ReplayNeedsAStall | apps/control-api/app/Support/AgentProofVerifier.php:16-48 | with several clock reads per call, a second acceptance needs a call that stalls between its check and its purge for at least the distance of both acceptances from the edges |
| NonceTable.StalledReplayIsAccepted | apps/control-api/app/Support/AgentProofVerifier.php:16-48 | such a stall is enough: for every pair of distances a run whose second call stalls for exactly their sum and is accepted |
| NonceTable.AcceptedIff | apps/control-api/app/Support/AgentProofVerifier.php:36-48 | in every run, with tests that may overlap other calls, a call that passes its tests is accepted if and only if it purges at least 120 seconds after the insert of every earlier acceptance of its agent and nonce |
| NonceTable.InsertsAreTwoMinutesApart | apps/control-api/app/Support/AgentProofVerifier.php:36-48 | however purges and inserts of different calls alternate, two successful inserts of one key are at least 120 seconds apart |
| NonceTable.CallIsItsStatements | apps/control-api/app/Support/AgentProofVerifier.php:36-48 | a call that passes its tests amounts to its purge followed by its insert |
| NonceTable.EdgesAreReachable | apps/control-api/app/Support/AgentProofVerifier.php:18-48 | the double acceptance at both edges does occur |
| NonceTable.NonceSurvives | apps/control-api/database/migrations/2026_07_06_000003_create_distributed_control_plane_tables.php:96-102 | a stored nonce stays in the table until a purge at or after its expiry |
| WgQuickParser.Parse | sdk/mobile/ios/TunnaraPacketTunnel/WgQuickConfigParser.swift:87-184 | the loop over the lines gives the result, error included, of the left-to-right specification |
| WgQuickParser.CommitCurrentSection | sdk/mobile/ios/TunnaraPacketTunnel/WgQuickConfigParser.swift:93-110 | commits the open section, refusing a second interface, and clears the attributes |
| WgQuickParser.ReadInterface | sdk/mobile/ios/TunnaraPacketTunnel/WgQuickConfigParser.swift:186-238 | the interface or the first error of its attributes in the order they are read |
| WgQuickParser.ReadDns | sdk/mobile/ios/TunnaraPacketTunnel/WgQuickConfigParser.swift:212-228 | servers and search domains in order, or the first text that is neither |
| WgQuickMeaning.ParserAcceptsMeaning | sdk/mobile/ios/TunnaraPacketTunnel/WgQuickConfigParser.swift:87-281 | the parser returns a configuration if and only if the text means it: nothing before the first header, every group well formed, exactly one interface, the peers in header order, distinct public keys |
| WgQuickMeaning.PassIsGroups | sdk/mobile/ios/TunnaraPacketTunnel/WgQuickConfigParser.swift:112-168 | from any state, the pass over any lines amounts to committing the groups of those lines |
| WgQuickMeaning.GroupsMean | sdk/mobile/ios/TunnaraPacketTunnel/WgQuickConfigParser.swift:93-110 | committing the groups in order gives a configuration if and only if they mean it |
| WgQuickMeaning.CollectSucceeds | sdk/mobile/ios/TunnaraPacketTunnel/WgQuickConfigParser.swift:152-165 | a section's attributes are accepted if and only if each belongs to it and only lists repeat |
| WgQuickMeaning.JoinedSplits | sdk/mobile/ios/TunnaraPacketTunnel/WgQuickConfigParser.swift:158-165 | a list spread over any number of lines splits into the pieces of each line, in order |
| WgQuickMeaning.SplitsAdd | sdk/mobile/ios/TunnaraPacketTunnel/WgQuickConfigParser.swift:283-288 | splitting two comma lists joined by a comma gives the pieces of both, one after the other |
| WgQuickMeaning.RepeatedListIsJoined | sdk/mobile/ios/TunnaraPacketTunnel/WgQuickConfigParser.swift:147-165 | from any state of the pass, two list lines in a row lead to the same configuration as one line with both values |
| WgQuickLists.RepeatedListInText | sdk/mobile/ios/TunnaraPacketTunnel/WgQuickConfigParser.swift:87-184 | in any text, between any texts, the lines "Address = a" and "Address = b", or those of another list, parse to the same configuration as "Address = a,b", or are refused alike |
| WgQuickMeaning.SetSize | sdk/mobile/ios/TunnaraPacketTunnel/WgQuickConfigParser.swift:174-177 | comparing the number of different keys with the number of keys detects exactly the repetitions |
| WgQuickPrinter.PrintParses | sdk/mobile/ios/TunnaraPacketTunnel/WgQuickConfigParser.swift:87-281 | parsing the print of any valid configuration gives that configuration |
| WgQuickPrinter.PartsGroup | sdk/mobile/ios/TunnaraPacketTunnel/WgQuickConfigParser.swift:112-166 | the lines of printed sections group into those sections |
| RouteResolver.ExactWeighting | apps/control-api/app/Support/RouteResolver.php:42-48 | among the draws 1 to the total weight, exactly max(1, weight) select a candidate |
| RouteResolver.ChooseWeighted | apps/control-api/app/Support/RouteResolver.php:43-48 | the loop selects the candidate whose interval of draws holds the draw, and never falls back to the first |
| RouteResolver.EveryDrawOwned | apps/control-api/app/Support/RouteResolver.php:42-48 | every draw belongs to some candidate's interval |
| RouteResolver.OwnerIsUnique | apps/control-api/app/Support/RouteResolver.php:45-48 | no draw belongs to two candidates |
| RouteResolver.CandidatesAreTheBest | apps/control-api/app/Support/RouteResolver.php:24-41 | the candidates are exactly the enabled targets of the tunnel that are healthy, or unknown if none is healthy, with the least priority of that class |
| RouteResolver.Resolve | apps/control-api/app/Support/RouteResolver.php:22-55 | the answer is such a target, the one that owns the draw; there is none if and only if no eligible target is healthy or unknown |
| SdkBuffers.JsonEscape | sdk/c/src/tunnara.c:39-70 | every write stays in the buffer across all growths, the result is the escaped text, NUL-terminated, in at most 12n+2 bytes |
| SdkBuffers.DecodeEscapeRoundTrip | sdk/c/src/tunnara.c:48-57 | decoding the escaped text by section 7 of RFC 8259 gives the input, for every NUL-free byte string |
| SdkBuffers.EscapedIsClean | sdk/c/src/tunnara.c:48-57 | the escaped text has no raw quote and no control byte |
| SdkBuffers.ReceiveResponse | sdk/c/src/tunnara.c:117-137 | capacity is 8192 times a power of two and at most 32 MiB; the buffer holds the concatenation of the chunks; without socket errors it completes if and only if the total is below 33554432 bytes, for any chunking |
| SdkBuffers.RequestAlwaysFits | sdk/c/src/tunnara.c:97-105 | the fixed slack of 1024 bytes covers the format for every verb, host, port and body length the client can have |
| SdkBuffers.CreateTunnelBody | sdk/c/src/tunnara.c:155-193 | a null client or protocol or a zero port is refused; else the pieces written one after the other are the whole JSON text if it fits in 2048 bytes with its NUL, and an error otherwise |
| SdkBuffers.Snprintf | sdk/c/src/tunnara.c:169-191 | reports the full length, keeps what stands before, and when that fits the text and its NUL are in place |
| SdkBuffers.TwelveDoublings | sdk/c/src/tunnara.c:117-125 | the ceiling is reached by whole doublings of the first capacity |
| ArgAliases.WithTauriArgAliases | apps/console/src/services/tauri.ts:87-108 | the recursive method with its loop over the entries equals the specification, which the next three rows describe |
| ArgAliases.AliasIdempotent | apps/console/src/services/tauri.ts:87-108 | aliasing an aliased tree changes nothing, entry order included |
| ArgAliases.AliasedLookup | apps/console/src/services/tauri.ts:96-107 | for every key: an explicit key keeps its own value whatever the order, another key has the value of the first explicit key that aliases to it, and nothing else appears |
| ArgAliases.CamelCaseIdempotent | apps/console/src/services/tauri.ts:4-6 | camel-casing twice is camel-casing once |
| LogRedaction.LogIndependentOfSecrets | apps/console/src/services/logger.ts:35-47 | two argument trees that differ only below sensitive keys have the same log form after aliasing |
| LogRedaction.AliasOfSensitiveIsSensitive | apps/console/src/services/logger.ts:14-33 | the alias of a sensitive key is sensitive, for every key |
| LogRedaction.ApikeyMarkerIsNeeded | apps/console/src/services/logger.ts:21-22 | without the marker apikey the log form of aliased arguments shows the value of an api_key |
| LogRedaction.SanitizedObject | apps/console/src/services/logger.ts:39-45 | the log form of an object keeps its keys and order and hides exactly the values of sensitive keys |
| LogRedaction.SanitizeForLog | apps/console/src/services/logger.ts:35-47 | the recursive method with its loop over the entries equals the specification |
| LogRedaction.AliasKeepsSame | apps/console/src/services/tauri.ts:87-108 | aliasing keeps two trees equal outside sensitive keys |
| LogRedaction.SensitiveWithoutTrim | apps/console/src/services/logger.ts:30-33 | trimming a key never decides whether it is sensitive |
| WebStore.WebLocalDatabase.Save | apps/console/src/core/storage/WebLocalDatabase.ts:137-168 | the whole new database, and the returned row is in it |
| WebStore.WebLocalDatabase.Delete | apps/console/src/core/storage/WebLocalDatabase.ts:170-177 | removes the rows with the id, and answers whether there was one |
| WebStore.SaveRefinesMap | apps/console/src/core/storage/WebLocalDatabase.ts:137-168 | on the map from id to record, a save updates the entry of a present id and otherwise adds one under the next, unused, id |
| WebStore.DeleteRefinesMap | apps/console/src/core/storage/WebLocalDatabase.ts:170-177 | on the map, a delete removes exactly that id |
| WebStore.IdsStayDistinct | apps/console/src/core/storage/WebLocalDatabase.ts:119-183 | after every run of saves, deletes and clears from the initial database, the ids of each table are distinct |
| WebStore.CounterBoundsPastIds | apps/console/src/core/storage/WebLocalDatabase.ts:119-168 | once a table's counter is set it bounds every id present from then on, for ever |
| WebStore.NoReuseOnceCounterSet | apps/console/src/core/storage/WebLocalDatabase.ts:137-168 | no id present since the counter was set is given to a new record |
| WebStore.ReuseBeforeCounterSet | apps/console/src/core/storage/WebLocalDatabase.ts:18-90 | a table that starts with rows and no counter reuses an id after a deletion |
| WebStore.ReusableIffCounterUnset | apps/console/src/core/storage/WebLocalDatabase.ts:137-168 | in every reachable state the id of a present record can be given out again by some continuation if and only if the table's counter is not set, and then the table is departamentos or funcoes |
| WebStore.SeededIdsAreReusable | apps/console/src/core/storage/WebLocalDatabase.ts:18-90 | both of these tables start in such a state |
| WebStore.OtherTablesUntouched | apps/console/src/core/storage/WebLocalDatabase.ts:119-183 | an operation changes neither the rows nor the counter of another table |
| WebhookLog.SnapshotIsReversedTail | apps/console/src-tauri/src/native_webhook/routes.rs:203-227 | in every interleaving the snapshot is the reverse of the last min(n, 500) of the n records pushed since the last clear |
| WebhookLog.LoggedIdsDistinctAndBounded | apps/console/src-tauri/src/native_webhook/routes.rs:47-52 | in every interleaving the logged ids are distinct, positive and never above the sequence |
| WebhookLog.DrainKeepsLast | apps/console/src-tauri/src/native_webhook/routes.rs:203-210 | draining after each push keeps exactly the newest 500 records |
| WebhookLog.OrderMayDiffer | apps/console/src-tauri/src/native_webhook/routes.rs:47-52 | a run in which records are logged in another order than their ids |
| WebhookLog.EventLog.PushEvent | apps/console/src-tauri/src/native_webhook/routes.rs:203-210 | appends the record and drops the oldest beyond 500, as the push step of the interleaving its run records |
| WebhookLog.EventLog.ListEventsSnapshot | apps/console/src-tauri/src/native_webhook/routes.rs:212-220 | the records, newest first, which are the last min(n, 500) pushed since the last clear of its run |
| WebhookLog.EventLog.NextId | apps/console/src-tauri/src/native_webhook/routes.rs:47-52 | the next id, as the taking step of the interleaving |

## Left out

* Sockets, TLS, HTTP, QUIC, threads and timers themselves: binding, probing, spawning and server answers are
  inputs of the model, and so are clock readings and random draws.
* Lock poisoning, allocation failure and failing cache or file writes: assumed not to happen.
* SQL and the database engines: the route query's answer and the nonce table are modelled by what they mean.
  Deleting an agent, which cascades to its nonces, is not part of the run.
* Signatures, hashes and base64: verdicts are inputs, the cache key is the document itself.
* LicenseService.GenericLicenseService.CheckLicense: the input is modelled after digits are extracted and the
  device and registration file have enriched it; application, company and offline sub-records of a decision,
  which are copied from the license, are not modelled, and the expiry warning is its number of days.
* LicenseService.GenericLicenseService.EvaluateLegacy: recursion in the code has no bound; the model follows it
  for a given number of activations, and AtMostTwoReentries and ForgetfulServerNeverEnds say when one suffices.
* OfflineDevices.AlwaysRightIff: speaks of verdicts from the company status; what the activation endpoint decides
  by itself, and for which device, is the server's matter.
* OfflineCache.OfflineAnswers: histories consist of checks that ran to their end, one at a time; a check cut
  short between its two cache writes leaves a payload, whose answers PayloadEntryAnswers describes.
* ServiceRuntime.Runtime.StartBackground: the class runs one call at a time; what calls in parallel can do is
  the subject of ServiceLifecycle. Sleeps and status records are not modelled.
* EnvFile.Environment.LoadEnvFile: variables that are not Unicode, and names the system compares without case.
* EnvRoundTrip.RoundTripIffSafe: the settings copy in the database, which takes precedence when present, and
  the port checks of saving.
* ProviderLimiter.AtMostTwiceTheLimitPerMinute: the limit is fixed during a run; the response cache and the
  lookup that calls the limiter are not part of this model.
* ProviderStaleness.BoundedUncooledIffOneSecond: marks need not answer lookups in the run that shows two seconds to
  be too many.
* ProviderLag.UnderAMinuteLate: says that there is a bound; the number given is not the least.
* NonceTable.InsertsAreTwoMinutesApart: statements execute in the order of their clock readings, each at once.
* NonceTable.AgentProofVerifier.Verify: clock readings and the session and signature verdicts are inputs; the
  purge is kept when the insert fails, where a database may undo both, which the next call's purge makes good.
* WgQuickMeaning.ParserAcceptsMeaning: says which configuration a text gives; which error an unacceptable text
  gives is stated by Parse, in the order of the pass. Characters are code points, so a combining mark after
  a separator counts as a character of its own.
* LogRedaction.AliasOfSensitiveIsSensitive: lower-casing is that of ASCII letters.
* ArgAliases.WithTauriArgAliases: the key `__proto__`, whose assignment does not create an entry, keys that are
  array indices, which an object lists before all others, and objects that are not plain.
* WebStore.WebLocalDatabase.Save: numbers are unbounded integers; fractional ids, JSON text and storage quotas are
  not modelled.
* RouteResolver.Resolve: the tunnel and presence records that accompany the target.
* SdkBuffers.CreateTunnelBody: allocation never fails.
* SdkBuffers.RequestAlwaysFits: sizes are unbounded integers with the stated limits; the send loop, which only
  resends the rest, and the parsing of the response are not modelled.
* WebhookLog.EventLog.PushEvent: the sequence number is unbounded.
* Company documents, formatting, entity tables, the user interface and the tunnel's data plane.
