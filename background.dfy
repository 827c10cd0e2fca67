/**
 * The extension's background service worker: the request dispatcher that answers
 * content-script messages, the statistics accumulator persisted in synced storage,
 * the settings normaliser, the server-online flag with its periodic health check,
 * and the tab and toolbar-button decisions.
 *
 * Browser APIs are replaced by plain state: `chrome.storage.sync` is the `storage`
 * map, every `sendResponse` call is appended to `replies`, every `fetch` issued is
 * appended to `requests` (its URL), every notification to `notifications`. What the
 * network answers is a `FetchOutcome` parameter and `Date.now()` is a `now` parameter.
 */
module Background {
  import opened Wrappers
  import opened Js

  const DefaultApiUrl := "http://localhost:5000/api"
  const ContributorUrl := "https://contributor.arabsstock.com/en"

  /** The message vocabulary `handleMessage` dispatches on. */
  const Actions: set<string> :=
    {"analyzeImage", "translateText", "optimizeMetadata", "updateStats", "getStats", "checkServerStatus", "getSettings"}
  /** The actions whose handler talks to the analysis server. */
  const ServerActions: set<string> := {"analyzeImage", "translateText", "optimizeMetadata"}

  // Error messages exactly as the worker produces them (including its spelling).
  const UnknownActionError := "Unkown action"
  const AnalyzeOfflineError := "Python server is offline. Please start the server"
  const TranslateOfflineError := "Python server is online"
  const OptimizeOfflineError := "Python server is offline"
  /** The TypeError message V8 gives for `undefined.imagesProcessed` (an `updateStats` message without `stats`). */
  const MissingStatsError := "Cannot read properties of undefined (reading 'imagesProcessed')"

  const ServerOfflineNotice := Notification("Server Offline", "Pyhton server connection lost", "error")
  const ServerOnlineNotice := Notification("Server Online", "Pyhton server connection restored", "basic")

  datatype Stats = Stats(imagesProcessed: int, keywordsGenerated: int, lastActive: int)

  /** The `newStats` argument of `updateStats`: each increment may be absent (`undefined`). */
  datatype StatsDelta = StatsDelta(imagesProcessed: Option<int>, keywordsGenerated: Option<int>)

  datatype Settings = Settings(autoFillEnabled: bool, notificationsEnabled: bool, arabicPriority: bool, apiUrl: JsValue)

  /** A parsed server answer: its JSON text and the one field the worker itself reads. */
  datatype ServerBody = ServerBody(json: string, optimizedKeywords: Option<seq<string>>)

  /** What one `fetch` yields: a rejection with its message, or a response. */
  datatype FetchOutcome = Rejected(reason: string) | Response(ok: bool, status: nat, body: ServerBody)

  datatype Data = ServerData(body: ServerBody) | StatsData(stats: Stats) | SettingsData(settings: Settings)

  /** The reply object `{success, data?, error?, online?}`. */
  datatype Reply = Reply(success: bool, data: Option<Data>, error: Option<string>, online: Option<bool>)

  /** A content-script message: its action and the `stats` payload of `updateStats`. */
  datatype Request = Request(action: string, stats: Option<StatsDelta>)

  datatype Notification = Notification(title: string, message: string, kind: string)

  datatype TabEffect = SetBadgeText(text: string, tabId: int) | SetBadgeColor(color: string) | InjectContentScript(tabId: int)

  datatype ClickEffect = OpenPopup | CreateTab(url: string)

  function Failure(message: string): Reply
  {
    Reply(false, None, Some(message), None)
  }

  /** A reply is either a success without an error or a failure with an error and nothing else. */
  predicate WellFormed(r: Reply)
  {
    (r.success ==> r.error.None?) &&
    (!r.success ==> r.error.Some? && r.data.None? && r.online.None?)
  }

  /** The reply `handleMessage` sends for a handler that returned `data` or threw. */
  function ReplyOf(r: Result<ServerBody>): (reply: Reply)
    ensures WellFormed(reply)
    ensures reply.success <==> r.Ok?
    ensures r.Ok? ==> reply.data == Some(ServerData(r.value))
    ensures r.Err? ==> reply.error == Some(r.message)
  {
    match r
    case Ok(b) => Reply(true, Some(ServerData(b)), None, None)
    case Err(m) => Failure(m)
  }

  /** A truthy increment: present and non-zero. */
  predicate Adds(inc: Option<int>)
  {
    inc.Some? && inc.value != 0
  }

  /** `updateStats`: add each truthy increment, stamp `lastActive` with the current time. */
  function ApplyDelta(st: Stats, d: StatsDelta, now: int): (r: Stats)
    ensures r.lastActive == now
    ensures !Adds(d.imagesProcessed) ==> r.imagesProcessed == st.imagesProcessed
    ensures Adds(d.imagesProcessed) ==> r.imagesProcessed == st.imagesProcessed + d.imagesProcessed.value
    ensures !Adds(d.keywordsGenerated) ==> r.keywordsGenerated == st.keywordsGenerated
    ensures Adds(d.keywordsGenerated) ==> r.keywordsGenerated == st.keywordsGenerated + d.keywordsGenerated.value
  {
    Stats(
      if Adds(d.imagesProcessed) then st.imagesProcessed + d.imagesProcessed.value else st.imagesProcessed,
      if Adds(d.keywordsGenerated) then st.keywordsGenerated + d.keywordsGenerated.value else st.keywordsGenerated,
      now)
  }

  function Amount(inc: Option<int>): int
  {
    if inc.Some? then inc.value else 0
  }

  /** Two successive `updateStats` calls count the same as one call with the summed increments. */
  lemma UpdatesAccumulate(st: Stats, d1: StatsDelta, d2: StatsDelta, t1: int, t2: int)
    ensures ApplyDelta(ApplyDelta(st, d1, t1), d2, t2) ==
            ApplyDelta(st, StatsDelta(Some(Amount(d1.imagesProcessed) + Amount(d2.imagesProcessed)),
                                      Some(Amount(d1.keywordsGenerated) + Amount(d2.keywordsGenerated))), t2)
  {
  }

  /** `saveStats`: the three counters written to synced storage. */
  function StoreStats(m: map<string, JsValue>, st: Stats): (r: map<string, JsValue>)
    ensures r.Keys == m.Keys + {"imagesProcessed", "keywordsGenerated", "lastActive"}
    ensures forall k :: k in m && k !in {"imagesProcessed", "keywordsGenerated", "lastActive"} ==> r[k] == m[k]
  {
    m["imagesProcessed" := Number(st.imagesProcessed)]
     ["keywordsGenerated" := Number(st.keywordsGenerated)]
     ["lastActive" := Number(st.lastActive)]
  }

  /** `stored || fallback` for a counter read back from storage. */
  function CountOr(v: JsValue, fallback: int): (r: int)
    ensures v.Number? && v.n != 0 ==> r == v.n
    ensures !Truthy(v) ==> r == fallback
  {
    if v.Number? && v.n != 0 then v.n else fallback
  }

  /** `loadStats`: missing or zero counters read as 0, a missing or zero `lastActive` as the current time. */
  function LoadedStats(m: map<string, JsValue>, now: int): Stats
  {
    Stats(CountOr(Get(m, "imagesProcessed"), 0),
          CountOr(Get(m, "keywordsGenerated"), 0),
          CountOr(Get(m, "lastActive"), now))
  }

  /** What `saveStats` writes, `loadStats` reads back (a zero counter reads back as the 0 it was). */
  lemma SaveLoadRoundTrip(m: map<string, JsValue>, st: Stats, now: int)
    requires st.lastActive != 0
    ensures LoadedStats(StoreStats(m, st), now) == st
  {
  }

  /** With nothing stored, the statistics start from zero at the current time. */
  lemma LoadFromEmptyStorage(now: int)
    ensures LoadedStats(map[], now) == Stats(0, 0, now)
  {
  }

  /** `getSettings`: the stored settings with their defaults applied. */
  function NormalisedSettings(m: map<string, JsValue>, apiUrl: string): (r: Settings)
    ensures r.autoFillEnabled <==> Get(m, "autoFillEnabled") != Bool(false)
    ensures r.notificationsEnabled <==> Get(m, "notificationsEnabled") != Bool(false)
    ensures r.arabicPriority <==> Get(m, "arabicPriority") == Bool(true)
    ensures Truthy(Get(m, "apiUrl")) ==> r.apiUrl == Get(m, "apiUrl")
    ensures !Truthy(Get(m, "apiUrl")) ==> r.apiUrl == Str(apiUrl)
  {
    var stored := Get(m, "apiUrl");
    Settings(Get(m, "autoFillEnabled") != Bool(false),
             Get(m, "notificationsEnabled") != Bool(false),
             Get(m, "arabicPriority") == Bool(true),
             if Truthy(stored) then stored else Str(apiUrl))
  }

  /** Normalised settings written back as storage entries. */
  function SettingsEntries(s: Settings): map<string, JsValue>
  {
    map["autoFillEnabled" := Bool(s.autoFillEnabled),
        "notificationsEnabled" := Bool(s.notificationsEnabled),
        "arabicPriority" := Bool(s.arabicPriority),
        "apiUrl" := s.apiUrl]
  }

  /** Normalising is idempotent: storing the normalised settings and reading them again changes nothing. */
  lemma NormaliseIdempotent(m: map<string, JsValue>, apiUrl: string)
    requires apiUrl != ""
    ensures NormalisedSettings(SettingsEntries(NormalisedSettings(m, apiUrl)), apiUrl) == NormalisedSettings(m, apiUrl)
  {
    var s := NormalisedSettings(m, apiUrl);
    assert Truthy(s.apiUrl);
  }

  /**
   * Empty storage and the entries written at installation both normalise to
   * auto-fill on, notifications on, Arabic priority off and the default server
   * (installation writes `notificationEnabled`, which `getSettings` never reads).
   */
  lemma DefaultSettings(apiUrl: string)
    requires apiUrl != ""
    ensures NormalisedSettings(map[], apiUrl) == Settings(true, true, false, Str(apiUrl))
    ensures NormalisedSettings(map["autoFillEnabled" := Bool(true), "notificationEnabled" := Bool(true),
                                   "arabicPriority" := Bool(false), "apiUrl" := Str(apiUrl),
                                   "imagesProcessed" := Number(0), "keywordsGenerated" := Number(0)], apiUrl)
            == Settings(true, true, false, Str(apiUrl))
  {
  }

  /**
   * What one `fetch` to an analysis-server endpoint yields for its caller:
   * the parsed body of an OK response; the rejection's message; or, for a
   * non-OK response, `"<prefix>: <status>"`.
   */
  function FetchResult(prefix: string, net: FetchOutcome): (r: Result<ServerBody>)
    ensures r.Ok? <==> net.Response? && net.ok
    ensures r.Ok? ==> r.value == net.body
    ensures net.Rejected? ==> r == Err(net.reason)
    ensures net.Response? && !net.ok ==> r == Err(prefix + ": " + NatToString(net.status))
  {
    match net
    case Rejected(reason) => Err(reason)
    case Response(ok, status, body) => if ok then Ok(body) else Err(prefix + ": " + NatToString(status))
  }

  /** A health check succeeds exactly on an OK response; a rejected fetch means offline. */
  predicate HealthOk(net: FetchOutcome)
  {
    net.Response? && net.ok
  }

  /** The health endpoint: the API base with its first "/api" removed, plus "/health". */
  function HealthUrl(apiUrl: string): string
  {
    ReplaceFirst(apiUrl, "/api", "") + "/health"
  }

  /** How many keywords `optimizeMetadata` counts: the length of `optimized_keywords`, 0 when missing. */
  function GeneratedKeywordCount(b: ServerBody): (n: nat)
    ensures b.optimizedKeywords.None? ==> n == 0
    ensures b.optimizedKeywords.Some? ==> n == |b.optimizedKeywords.value|
  {
    if b.optimizedKeywords.Some? then |b.optimizedKeywords.value| else 0
  }

  /** The same count as written: `optimized_keywords?.lenght || 0` reads a property arrays lack. */
  function GeneratedKeywordCountAsWritten(b: ServerBody): nat
  {
    var lenght := Undefined;  // `?.lenght` is undefined on a missing field and on every array
    if Truthy(lenght) then 1 else 0
  }

  /** As written, a successful optimisation never moves the keyword counter, whatever the server returned. */
  lemma OptimizeCountsNothingAsWritten(st: Stats, b: ServerBody, now: int)
    ensures ApplyDelta(st, StatsDelta(None, Some(GeneratedKeywordCountAsWritten(b))), now).keywordsGenerated == st.keywordsGenerated
  {
  }

  /** Corrected, the counter grows by exactly the number of optimised keywords returned. */
  lemma OptimizeCountsKeywords(st: Stats, b: ServerBody, now: int)
    ensures ApplyDelta(st, StatsDelta(None, Some(GeneratedKeywordCount(b))), now).keywordsGenerated
            == st.keywordsGenerated + GeneratedKeywordCount(b)
    ensures b.optimizedKeywords.Some? ==>
      ApplyDelta(st, StatsDelta(None, Some(GeneratedKeywordCount(b))), now).keywordsGenerated
        == st.keywordsGenerated + |b.optimizedKeywords.value|
  {
  }

  /** The notification one health tick raises, as written: the second test repeats `!this.isServerOnline`. */
  function TickNotificationAsWritten(wasOnline: bool, isOnline: bool): Option<Notification>
  {
    if wasOnline && !isOnline then Some(ServerOfflineNotice)
    else if !wasOnline && !isOnline then Some(ServerOnlineNotice)
    else None
  }

  /** As written, a server that stays offline is announced as restored on every tick, and a real recovery is silent. */
  lemma TickAsWrittenAnnouncesOnlineWhileOffline()
    ensures TickNotificationAsWritten(false, false) == Some(ServerOnlineNotice)
    ensures TickNotificationAsWritten(false, true) == None
  {
  }

  /** The notification one health tick raises: one per transition of the online flag and none otherwise. */
  function TickNotification(wasOnline: bool, isOnline: bool): (r: Option<Notification>)
    ensures r == Some(ServerOfflineNotice) <==> wasOnline && !isOnline
    ensures r == Some(ServerOnlineNotice) <==> !wasOnline && isOnline
    ensures r == None <==> wasOnline == isOnline
  {
    if wasOnline && !isOnline then Some(ServerOfflineNotice)
    else if !wasOnline && isOnline then Some(ServerOnlineNotice)
    else None
  }

  function OptionToSeq<T>(o: Option<T>): seq<T>
  {
    if o.Some? then [o.value] else []
  }

  /** A tab URL the extension acts on: present, non-empty and containing "arabsstock.com". */
  predicate IsArabsStockUrl(url: Option<string>)
  {
    url.Some? && url.value != "" && Includes(url.value, "arabsstock.com")
  }

  /** `handleTabUpdate`: badge the tab and inject the content script once an Arabs Stock page has loaded. */
  function TabUpdateEffects(tabId: int, status: Option<string>, url: Option<string>): (r: seq<TabEffect>)
    ensures r != [] <==> status == Some("complete") && IsArabsStockUrl(url)
    ensures r != [] ==> r == [SetBadgeText("AI", tabId), SetBadgeColor("667eea"), InjectContentScript(tabId)]
  {
    if status == Some("complete") && IsArabsStockUrl(url) then
      [SetBadgeText("AI", tabId), SetBadgeColor("667eea"), InjectContentScript(tabId)]
    else []
  }

  /** `handleActionClick`: the popup on an Arabs Stock tab, otherwise a new tab on the contributor site. */
  function ActionClickEffect(url: Option<string>): (r: ClickEffect)
    ensures r == OpenPopup <==> IsArabsStockUrl(url)
    ensures r != OpenPopup ==> r == CreateTab(ContributorUrl)
  {
    if IsArabsStockUrl(url) then OpenPopup else CreateTab(ContributorUrl)
  }

  /** A tab the worker has badged is one where clicking the toolbar button opens the popup. */
  lemma BadgedTabOpensPopup(tabId: int, status: Option<string>, url: Option<string>)
    requires TabUpdateEffects(tabId, status, url) != []
    ensures ActionClickEffect(url) == OpenPopup
  {
  }

  function Last(s: seq<Reply>): Reply
    requires |s| > 0
  {
    s[|s| - 1]
  }

  class BackgroundWorker {
    var apiUrl: string
    var isServerOnline: bool
    var stats: Stats
    var storage: map<string, JsValue>
    var replies: seq<Reply>
    var requests: seq<string>
    var notifications: seq<Notification>

    /** Construction and `init`: load the saved statistics, then run the first health check. */
    constructor (stored: map<string, JsValue>, now: int, health: FetchOutcome)
      ensures apiUrl == DefaultApiUrl && storage == stored
      ensures stats == LoadedStats(stored, now)
      ensures isServerOnline == HealthOk(health)
      ensures requests == [HealthUrl(DefaultApiUrl)]
      ensures replies == [] && notifications == []
    {
      apiUrl := DefaultApiUrl;
      isServerOnline := false;
      stats := Stats(0, 0, now);
      storage := stored;
      replies := [];
      requests := [];
      notifications := [];
      new;
      LoadStats(now);
      var _ := CheckServerHealth(health);
    }

    method UpdateStats(d: StatsDelta, now: int)
      modifies this`stats, this`storage
      ensures stats == ApplyDelta(old(stats), d, now)
      ensures storage == StoreStats(old(storage), stats)
    {
      if Adds(d.imagesProcessed) {
        stats := stats.(imagesProcessed := stats.imagesProcessed + d.imagesProcessed.value);
      }
      if Adds(d.keywordsGenerated) {
        stats := stats.(keywordsGenerated := stats.keywordsGenerated + d.keywordsGenerated.value);
      }
      stats := stats.(lastActive := now);
      SaveStats();
    }

    method SaveStats()
      modifies this`storage
      ensures storage == StoreStats(old(storage), stats)
    {
      storage := StoreStats(storage, stats);
    }

    method LoadStats(now: int)
      modifies this`stats
      ensures stats == LoadedStats(storage, now)
    {
      stats := LoadedStats(storage, now);
    }

    method GetSettings() returns (s: Settings)
      ensures s == NormalisedSettings(storage, apiUrl)
    {
      s := NormalisedSettings(storage, apiUrl);
    }

    /** `checkServerHealth`: the flag becomes `response.ok`, or false when the request fails. */
    method CheckServerHealth(health: FetchOutcome) returns (online: bool)
      modifies this`isServerOnline, this`requests
      ensures isServerOnline == HealthOk(health) && online == isServerOnline
      ensures requests == old(requests) + [HealthUrl(apiUrl)]
    {
      requests := requests + [HealthUrl(apiUrl)];
      match health
      case Rejected(_) =>
        isServerOnline := false;
        return false;
      case Response(ok, _, _) =>
        isServerOnline := ok;
        return isServerOnline;
    }

    /**
     * One 30-second tick: re-check the server and announce a change of its state.
     * The restoration notice is the corrected one (README, Findings); the branch
     * as written is `TickNotificationAsWritten`.
     */
    method HealthTick(health: FetchOutcome)
      modifies this`isServerOnline, this`requests, this`notifications
      ensures isServerOnline == HealthOk(health)
      ensures requests == old(requests) + [HealthUrl(apiUrl)]
      ensures notifications == old(notifications) + OptionToSeq(TickNotification(old(isServerOnline), isServerOnline))
      ensures |notifications| <= |old(notifications)| + 1
      ensures old(isServerOnline) && !isServerOnline <==> notifications == old(notifications) + [ServerOfflineNotice]
    {
      var wasOnline := isServerOnline;
      var _ := CheckServerHealth(health);
      if wasOnline && !isServerOnline {
        notifications := notifications + [ServerOfflineNotice];
      } else if !wasOnline && isServerOnline {
        notifications := notifications + [ServerOnlineNotice];
        assert notifications[|notifications| - 1] != ServerOfflineNotice;
      }
    }

    method AnalyzeImage(net: FetchOutcome, now: int) returns (r: Result<ServerBody>)
      modifies this`requests, this`stats, this`storage
      ensures !old(isServerOnline) ==> r == Err(AnalyzeOfflineError) && requests == old(requests)
      ensures old(isServerOnline) ==> requests == old(requests) + [apiUrl + "/analyze"] && r == FetchResult("Server error", net)
      ensures r.Ok? ==> stats == ApplyDelta(old(stats), StatsDelta(Some(1), None), now) && storage == StoreStats(old(storage), stats)
      ensures r.Err? ==> stats == old(stats) && storage == old(storage)
    {
      if !isServerOnline {
        return Err(AnalyzeOfflineError);
      }
      requests := requests + [apiUrl + "/analyze"];
      r := FetchResult("Server error", net);
      if r.Ok? {
        UpdateStats(StatsDelta(Some(1), None), now);
      }
    }

    method TranslateText(net: FetchOutcome) returns (r: Result<ServerBody>)
      modifies this`requests
      ensures !old(isServerOnline) ==> r == Err(TranslateOfflineError) && requests == old(requests)
      ensures old(isServerOnline) ==> requests == old(requests) + [apiUrl + "/translate"] && r == FetchResult("Translation error", net)
    {
      if !isServerOnline {
        return Err(TranslateOfflineError);
      }
      requests := requests + [apiUrl + "/translate"];
      r := FetchResult("Translation error", net);
    }

    /**
     * `optimizeMetadata`, counting the optimised keywords with `.length`, the
     * corrected form of `.lenght` (README, Findings).
     */
    method OptimizeMetadata(net: FetchOutcome, now: int) returns (r: Result<ServerBody>)
      modifies this`requests, this`stats, this`storage
      ensures !old(isServerOnline) ==> r == Err(OptimizeOfflineError) && requests == old(requests)
      ensures old(isServerOnline) ==> requests == old(requests) + [apiUrl + "/optimize"] && r == FetchResult("Optimization error", net)
      ensures r.Ok? ==>
        stats == ApplyDelta(old(stats), StatsDelta(None, Some(GeneratedKeywordCount(r.value))), now) &&
        storage == StoreStats(old(storage), stats)
      ensures r.Err? ==> stats == old(stats) && storage == old(storage)
    {
      if !isServerOnline {
        return Err(OptimizeOfflineError);
      }
      requests := requests + [apiUrl + "/optimize"];
      r := FetchResult("Optimization error", net);
      if r.Ok? {
        UpdateStats(StatsDelta(None, Some(GeneratedKeywordCount(r.value))), now);
      }
    }

    /**
     * `handleMessage`: dispatch on the action and send exactly one reply. A handler
     * that throws becomes a failure reply carrying the exception's message; the
     * `net` outcome answers whichever single request the handler issues.
     */
    method HandleMessage(request: Request, net: FetchOutcome, now: int)
      modifies this
      ensures |replies| == |old(replies)| + 1 && replies[..|old(replies)|] == old(replies)
      ensures WellFormed(Last(replies))
      ensures apiUrl == old(apiUrl) && notifications == old(notifications)
      ensures request.action !in Actions ==>
        Last(replies) == Failure(UnknownActionError) &&
        stats == old(stats) && storage == old(storage) && isServerOnline == old(isServerOnline) && requests == old(requests)
      ensures request.action == "getStats" ==>
        Last(replies) == Reply(true, Some(StatsData(old(stats))), None, None) &&
        stats == old(stats) && storage == old(storage) && requests == old(requests)
      ensures request.action == "getSettings" ==>
        Last(replies) == Reply(true, Some(SettingsData(NormalisedSettings(old(storage), apiUrl))), None, None) &&
        stats == old(stats) && storage == old(storage) && requests == old(requests)
      ensures request.action == "checkServerStatus" ==>
        isServerOnline == HealthOk(net) && Last(replies) == Reply(true, None, None, Some(isServerOnline)) &&
        requests == old(requests) + [HealthUrl(apiUrl)] && stats == old(stats) && storage == old(storage)
      ensures request.action == "updateStats" && request.stats.None? ==>
        Last(replies) == Failure(MissingStatsError) && stats == old(stats) && storage == old(storage) &&
        requests == old(requests)
      ensures request.action == "updateStats" && request.stats.Some? ==>
        Last(replies) == Reply(true, None, None, None) && stats == ApplyDelta(old(stats), request.stats.value, now) &&
        storage == StoreStats(old(storage), stats) && requests == old(requests)
      ensures request.action in ServerActions && !old(isServerOnline) ==>
        requests == old(requests) && stats == old(stats) && storage == old(storage)
      ensures request.action == "analyzeImage" && !old(isServerOnline) ==> Last(replies) == Failure(AnalyzeOfflineError)
      ensures request.action == "translateText" && !old(isServerOnline) ==> Last(replies) == Failure(TranslateOfflineError)
      ensures request.action == "optimizeMetadata" && !old(isServerOnline) ==> Last(replies) == Failure(OptimizeOfflineError)
      ensures request.action == "analyzeImage" && old(isServerOnline) ==>
        var r := FetchResult("Server error", net);
        Last(replies) == ReplyOf(r) && requests == old(requests) + [old(apiUrl) + "/analyze"] &&
        (r.Ok? ==> stats == ApplyDelta(old(stats), StatsDelta(Some(1), None), now) && storage == StoreStats(old(storage), stats)) &&
        (r.Err? ==> stats == old(stats) && storage == old(storage))
      ensures request.action == "translateText" && old(isServerOnline) ==>
        Last(replies) == ReplyOf(FetchResult("Translation error", net)) &&
        requests == old(requests) + [old(apiUrl) + "/translate"] && stats == old(stats) && storage == old(storage)
      ensures request.action == "optimizeMetadata" && old(isServerOnline) ==>
        var r := FetchResult("Optimization error", net);
        Last(replies) == ReplyOf(r) && requests == old(requests) + [old(apiUrl) + "/optimize"] &&
        (r.Ok? ==>
          stats == ApplyDelta(old(stats), StatsDelta(None, Some(GeneratedKeywordCount(r.value))), now) &&
          storage == StoreStats(old(storage), stats)) &&
        (r.Err? ==> stats == old(stats) && storage == old(storage))
      ensures request.action != "checkServerStatus" ==> isServerOnline == old(isServerOnline)
    {
      var reply: Reply;
      if request.action == "analyzeImage" {
        var r := AnalyzeImage(net, now);
        reply := ReplyOf(r);
      } else if request.action == "translateText" {
        var r := TranslateText(net);
        reply := ReplyOf(r);
      } else if request.action == "optimizeMetadata" {
        var r := OptimizeMetadata(net, now);
        reply := ReplyOf(r);
      } else if request.action == "updateStats" {
        match request.stats
        case None =>
          reply := Failure(MissingStatsError);
        case Some(d) =>
          UpdateStats(d, now);
          reply := Reply(true, None, None, None);
      } else if request.action == "getStats" {
        reply := Reply(true, Some(StatsData(stats)), None, None);
      } else if request.action == "checkServerStatus" {
        var status := CheckServerHealth(net);
        reply := Reply(true, None, None, Some(status));
      } else if request.action == "getSettings" {
        var settings := GetSettings();
        reply := Reply(true, Some(SettingsData(settings)), None, None);
      } else {
        reply := Failure(UnknownActionError);
      }
      replies := replies + [reply];
    }
  }
}
