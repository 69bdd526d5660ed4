/**
 * The relay's request handlers: /add-record, /auth/callback and /auth/url.
 *
 * Every outbound call is an abstract outcome drawn from an `Upstreams`
 * value. The token store and the notification log are the state the
 * handlers change; a ghost trace records the requests sent to the store
 * and to Notion.
 */
module Relay {
  import opened Outcomes
  import opened Strings
  import opened Notion
  import opened Failures

  /** The record the token store keeps: a credential pair and when it was fetched. */
  datatype StoredTokens = StoredTokens(accessToken: string, refreshToken: string, expiresIn: int, fetchedAt: string)

  /** A request the relay sends to the token store or to Notion. */
  datatype Call =
    | GetToken                              // GET  store /api/get-token
    | ExchangeToken(request: TokenRequest)  // POST Notion /v1/oauth/token
    | SaveToken(record: StoredTokens)       // POST store /api/save-token
    | CreatePage(page: PageRequest)         // POST Notion /v1/pages

  /**
   * How each upstream answers. A store GET that does not fault returns the
   * store's current record; the other calls answer as functions of what is
   * sent to them.
   */
  datatype Upstreams = Upstreams(
    storeGet: Fault,
    exchange: TokenRequest -> Outcome<TokenPair>,
    storeSave: StoredTokens -> Fault,
    createPage: PageRequest -> Outcome<NotionPage>,
    webhook: string -> Fault)

  datatype Body = PlainText(text: string) | Page(page: NotionPage) | UrlJson(url: string)

  datatype HttpResponse = HttpResponse(status: int, body: Body)

  const AddRecordFailedText := "Notion登録失敗💦"
  const AuthSucceededText := "✅ 認証成功！これでLaravelから叩ける準備ができました。"
  const AuthFailedText := "認証失敗💦"

  /** The record saved for a freshly obtained pair, fetched at `now`. */
  function Persisted(pair: TokenPair, now: string): StoredTokens
  {
    StoredTokens(pair.accessToken, pair.refreshToken, pair.expiresIn, now)
  }

  /**
   * What one request does: its response, the store's record afterwards,
   * the alerts it sends and the requests it makes, in order.
   */
  datatype Run = Run(response: HttpResponse, store: StoredTokens, notices: seq<string>, calls: seq<Call>)

  // ---------------------------------------------------------------------------
  // /add-record

  /** The outer catch of /add-record: one alert for the error's category, then a generic 500. */
  function Caught(e: CallError, store: StoredTokens, notices: seq<string>, calls: seq<Call>): Run
  {
    Run(HttpResponse(500, PlainText(AddRecordFailedText)), store, notices + [AlertText(Classify(e))], calls)
  }

  /** The refresh request /add-record sends for the store's record. */
  function RefreshRequest(cfg: Config, stored: StoredTokens): TokenRequest
  {
    TokenRequestFor(cfg, RefreshToken(stored.refreshToken))
  }

  /** The page-create request /add-record sends once it holds `pair`. */
  function PageRequestFor(cfg: Config, pair: TokenPair, input: RecordInput, now: string): PageRequest
  {
    PageRequest(Authorization(pair.accessToken), NotionVersion, PageFor(cfg.databaseId, input, now))
  }

  /**
   * One /add-record request against a store holding `stored`. `saveClock`
   * and `pageClock` are the two readings of the clock: the saved record's
   * fetch time and the instant the page is dated with.
   */
  function AddRecordRun(cfg: Config, stored: StoredTokens, input: RecordInput,
                        saveClock: string, pageClock: string, up: Upstreams): Run
  {
    match up.storeGet
    case Some(e) => Caught(e, stored, [], [GetToken])
    case None =>
      var refresh := RefreshRequest(cfg, stored);
      match up.exchange(refresh)
      case Err(e) => Caught(e, stored, [], [GetToken, ExchangeToken(refresh)])
      case Ok(pair) =>
        var record := Persisted(pair, saveClock);
        var saved := up.storeSave(record).None?;
        var store' := if saved then record else stored;
        var notices := if saved then [] else [SaveTokenFailedText];
        var request := PageRequestFor(cfg, pair, input, pageClock);
        var calls := [GetToken, ExchangeToken(refresh), SaveToken(record), CreatePage(request)];
        match up.createPage(request)
        case Err(e) => Caught(e, store', notices, calls)
        case Ok(page) => Run(HttpResponse(200, Page(page)), store', notices, calls)
  }

  /**
   * The refresh is unconditional: whenever the store answers, the second
   * request is a refresh grant for exactly the stored refresh token, and it
   * is the only token request of the run. Nothing else of the stored record
   * (its expiry, its fetch time, its access token) affects the requests sent,
   * the alerts or the response.
   */
  lemma RefreshIsUnconditional(cfg: Config, stored: StoredTokens, other: StoredTokens, input: RecordInput,
                               saveClock: string, pageClock: string, up: Upstreams)
    requires up.storeGet.None?
    requires other.refreshToken == stored.refreshToken
    ensures var r := AddRecordRun(cfg, stored, input, saveClock, pageClock, up);
      |r.calls| >= 2 && r.calls[0] == GetToken &&
      r.calls[1] == ExchangeToken(TokenRequest(RefreshToken(stored.refreshToken), cfg.clientId, cfg.clientSecret)) &&
      (forall i :: 0 <= i < |r.calls| && r.calls[i].ExchangeToken? ==> i == 1)
    ensures var r := AddRecordRun(cfg, stored, input, saveClock, pageClock, up);
      var r' := AddRecordRun(cfg, other, input, saveClock, pageClock, up);
      r'.calls == r.calls && r'.notices == r.notices && r'.response == r.response
  {
  }

  /**
   * A failed save is not fatal: it sends exactly the save-token alert, the
   * store keeps its old record, and the page is still requested with the
   * new access token; if Notion accepts it, the caller gets Notion's page.
   */
  lemma SaveFailureIsNonFatal(cfg: Config, stored: StoredTokens, input: RecordInput,
                              saveClock: string, pageClock: string, up: Upstreams, pair: TokenPair)
    requires up.storeGet.None?
    requires up.exchange(RefreshRequest(cfg, stored)) == Ok(pair)
    requires up.storeSave(Persisted(pair, saveClock)).Some?
    ensures var r := AddRecordRun(cfg, stored, input, saveClock, pageClock, up);
      |r.calls| == 4 && r.calls[3].CreatePage? &&
      BearerToken(r.calls[3].page.authorization) == Some(pair.accessToken) &&
      r.store == stored &&
      |r.notices| >= 1 && r.notices[0] == SaveTokenFailedText &&
      (up.createPage(r.calls[3].page).Ok? ==>
         r.response == HttpResponse(200, Page(up.createPage(r.calls[3].page).value)) &&
         r.notices == [SaveTokenFailedText])
  {
    AuthorizationRoundTrip(pair.accessToken);
  }

  /**
   * Exactly one save is attempted, the third request. What is saved is the
   * new pair with the save's own timestamp, never the
   * old tokens; the store ends with either its old record (the save was not
   * made or failed) or that new record (the save succeeded). When the refresh
   * succeeds, the page is requested with the new access token.
   */
  lemma SavedRecordIsNewPair(cfg: Config, stored: StoredTokens, input: RecordInput,
                             saveClock: string, pageClock: string, up: Upstreams, pair: TokenPair)
    requires up.storeGet.None?
    requires up.exchange(RefreshRequest(cfg, stored)) == Ok(pair)
    ensures var r := AddRecordRun(cfg, stored, input, saveClock, pageClock, up);
      |r.calls| == 4 && r.calls[2] == SaveToken(Persisted(pair, saveClock)) &&
      (forall i :: 0 <= i < |r.calls| && r.calls[i].SaveToken? ==>
         r.calls[i].record == StoredTokens(pair.accessToken, pair.refreshToken, pair.expiresIn, saveClock)) &&
      (forall i :: 0 <= i < |r.calls| && r.calls[i].CreatePage? ==>
         BearerToken(r.calls[i].page.authorization) == Some(pair.accessToken)) &&
      (r.store == stored || r.store == Persisted(pair, saveClock)) &&
      (r.store == Persisted(pair, saveClock) <==> up.storeSave(Persisted(pair, saveClock)).None?
                                                  || stored == Persisted(pair, saveClock))
  {
    AuthorizationRoundTrip(pair.accessToken);
  }

  /**
   * Every run ends in one of two ways. Success: status 200, the body is the
   * page Notion returned for the last request, and the only alert possible
   * is the save-token one. Failure: status 500 with the generic body, whatever
   * went wrong, and the last alert is a category alert (after at most the
   * save-token one).
   */
  lemma AddRecordOutcomes(cfg: Config, stored: StoredTokens, input: RecordInput,
                          saveClock: string, pageClock: string, up: Upstreams)
    ensures var r := AddRecordRun(cfg, stored, input, saveClock, pageClock, up);
      |r.calls| >= 1 &&
      (r.response.status == 200 || r.response.status == 500) &&
      (r.response.status == 200 ==>
         r.calls[|r.calls| - 1].CreatePage? &&
         up.createPage(r.calls[|r.calls| - 1].page) == Ok(r.response.body.page) &&
         (r.notices == [] || r.notices == [SaveTokenFailedText])) &&
      (r.response.status == 500 ==>
         r.response.body == PlainText(AddRecordFailedText) &&
         (|r.notices| == 1 || (|r.notices| == 2 && r.notices[0] == SaveTokenFailedText)) &&
         AlertCategory(r.notices[|r.notices| - 1]).Some?)
  {
  }

  /**
   * Each point of failure: the error that reaches the outer catch is
   * classified and reported once, with nothing sent after it.
   */
  lemma AddRecordFailurePoints(cfg: Config, stored: StoredTokens, input: RecordInput,
                               saveClock: string, pageClock: string, up: Upstreams, e: CallError)
    ensures up.storeGet == Some(e) ==>
      AddRecordRun(cfg, stored, input, saveClock, pageClock, up) ==
      Run(HttpResponse(500, PlainText(AddRecordFailedText)), stored, [AlertText(Classify(e))], [GetToken])
    ensures up.storeGet.None? && up.exchange(RefreshRequest(cfg, stored)) == Err(e) ==>
      AddRecordRun(cfg, stored, input, saveClock, pageClock, up) ==
      Run(HttpResponse(500, PlainText(AddRecordFailedText)), stored, [AlertText(Classify(e))],
          [GetToken, ExchangeToken(RefreshRequest(cfg, stored))])
    ensures forall pair: TokenPair ::
      up.storeGet.None? && up.exchange(RefreshRequest(cfg, stored)) == Ok(pair) &&
      up.createPage(PageRequestFor(cfg, pair, input, pageClock)) == Err(e) ==>
      var r := AddRecordRun(cfg, stored, input, saveClock, pageClock, up);
      r.response == HttpResponse(500, PlainText(AddRecordFailedText)) &&
      r.notices[|r.notices| - 1] == AlertText(Classify(e)) && |r.calls| == 4
  {
  }

  /**
   * With every upstream healthy the record is written with the new token,
   * in the configured database, with the record's own fields, and Notion's
   * page comes back with status 200 and no alert.
   */
  lemma AddRecordHealthy(cfg: Config, stored: StoredTokens, input: RecordInput,
                         saveClock: string, pageClock: string, up: Upstreams, pair: TokenPair, page: NotionPage)
    requires up.storeGet.None?
    requires up.exchange(RefreshRequest(cfg, stored)) == Ok(pair)
    requires up.storeSave(Persisted(pair, saveClock)).None?
    requires up.createPage(PageRequestFor(cfg, pair, input, pageClock)) == Ok(page)
    requires IsIsoTimestamp(pageClock)
    ensures var r := AddRecordRun(cfg, stored, input, saveClock, pageClock, up);
      r.response == HttpResponse(200, Page(page)) && r.notices == [] &&
      r.store == StoredTokens(pair.accessToken, pair.refreshToken, pair.expiresIn, saveClock) &&
      |r.calls| == 4 && r.calls[3].CreatePage? &&
      r.calls[3].page.notionVersion == NotionVersion &&
      BearerToken(r.calls[3].page.authorization) == Some(pair.accessToken) &&
      r.calls[3].page.body.parentDatabaseId == cfg.databaseId &&
      RecordOf(r.calls[3].page.body) == Some(input) &&
      r.calls[3].page.body.properties.dateStart == pageClock[..10]
  {
    AuthorizationRoundTrip(pair.accessToken);
    PageForContents(cfg.databaseId, input, pageClock);
  }

  // ---------------------------------------------------------------------------
  // /auth/callback

  /**
   * One /auth/callback request with the query's `code`, at the instant
   * `now`. It never alerts; any failure is a 500, and only a fully
   * successful run changes the store, to exactly the exchanged pair.
   */
  function CallbackRun(cfg: Config, stored: StoredTokens, code: string, now: string, up: Upstreams): (r: Run)
    ensures r.notices == []
    ensures |r.calls| >= 1 &&
            r.calls[0] == ExchangeToken(TokenRequest(AuthorizationCode(code, cfg.redirectUri), cfg.clientId, cfg.clientSecret))
    ensures up.exchange(r.calls[0].request).Err? ==> r.calls == [r.calls[0]]
    ensures up.exchange(r.calls[0].request).Ok? ==>
              r.calls == [r.calls[0], SaveToken(Persisted(up.exchange(r.calls[0].request).value, now))]
    ensures r.response.status == 200 || r.response == HttpResponse(500, PlainText(AuthFailedText))
    ensures r.response.status == 200 <==>
              up.exchange(r.calls[0].request).Ok? &&
              up.storeSave(Persisted(up.exchange(r.calls[0].request).value, now)).None?
    ensures r.response.status == 200 ==>
              r.response.body == PlainText(AuthSucceededText) &&
              r.store == Persisted(up.exchange(r.calls[0].request).value, now)
    ensures r.response.status != 200 ==> r.store == stored
  {
    var request := TokenRequestFor(cfg, AuthorizationCode(code, cfg.redirectUri));
    match up.exchange(request)
    case Err(_) => Run(HttpResponse(500, PlainText(AuthFailedText)), stored, [], [ExchangeToken(request)])
    case Ok(pair) =>
      var record := Persisted(pair, now);
      var calls := [ExchangeToken(request), SaveToken(record)];
      if up.storeSave(record).None? then Run(HttpResponse(200, PlainText(AuthSucceededText)), record, [], calls)
      else Run(HttpResponse(500, PlainText(AuthFailedText)), stored, [], calls)
  }

  // ---------------------------------------------------------------------------
  // /auth/url

  /**
   * The /auth/url response: the authorization URL as JSON. `encode` is the
   * percent-encoder applied to the configured redirect URI, the same URI the
   * callback sends with its code; the client id and the encoded URI read back.
   */
  function AuthUrlResponse(cfg: Config, encode: string -> string): (r: HttpResponse)
    ensures r.status == 200 && r.body.UrlJson?
    ensures '&' !in cfg.clientId ==> ParseAuthUrl(r.body.url) == Some((cfg.clientId, encode(cfg.redirectUri)))
  {
    var url := AuthUrl(cfg.clientId, encode(cfg.redirectUri));
    assert '&' !in cfg.clientId ==> ParseAuthUrl(url) == Some((cfg.clientId, encode(cfg.redirectUri))) by {
      if '&' !in cfg.clientId { AuthUrlRoundTrip(cfg.clientId, encode(cfg.redirectUri)); }
    }
    HttpResponse(200, UrlJson(url))
  }

  // ---------------------------------------------------------------------------
  // The service

  /**
   * The relay with the state its handlers change: the token store's record,
   * the log of alerts sent to the notification channel, and (ghost) the
   * requests sent to the store and to Notion.
   */
  class Service {
    const config: Config
    var store: StoredTokens
    var notifications: seq<string>
    ghost var outbound: seq<Call>

    constructor (config: Config, initial: StoredTokens)
      ensures this.config == config && store == initial
      ensures notifications == [] && outbound == []
    {
      this.config := config;
      store := initial;
      notifications := [];
      outbound := [];
    }

    /** Best-effort alert: the post is attempted and its failure goes no further. */
    method Notify(message: string, up: Upstreams)
      modifies this
      ensures notifications == old(notifications) + [message]
      ensures store == old(store) && outbound == old(outbound)
    {
      match up.webhook(message) {
        case None =>
        case Some(_) =>  // written to the operator log only
      }
      notifications := notifications + [message];
    }

    /** Reads the store's current record. */
    method GetCurrentTokens(up: Upstreams) returns (r: Outcome<StoredTokens>)
      modifies this
      ensures r == match up.storeGet case None => Ok(store) case Some(e) => Err(e)
      ensures outbound == old(outbound) + [GetToken]
      ensures store == old(store) && notifications == old(notifications)
    {
      outbound := outbound + [GetToken];
      r := match up.storeGet case None => Ok(store) case Some(e) => Err(e);
    }

    /** Exchanges `refreshToken` for a new pair. */
    method RefreshAccessToken(refreshToken: string, up: Upstreams) returns (r: Outcome<TokenPair>)
      modifies this
      ensures r == up.exchange(TokenRequestFor(config, RefreshToken(refreshToken)))
      ensures outbound == old(outbound) + [ExchangeToken(TokenRequestFor(config, RefreshToken(refreshToken)))]
      ensures store == old(store) && notifications == old(notifications)
    {
      var request := TokenRequestFor(config, RefreshToken(refreshToken));
      outbound := outbound + [ExchangeToken(request)];
      r := up.exchange(request);
    }

    /** Asks the store to save `record`; it holds `record` afterwards only if the save succeeds. */
    method SaveToken(record: StoredTokens, up: Upstreams) returns (fault: Fault)
      modifies this
      ensures fault == up.storeSave(record)
      ensures store == if fault.None? then record else old(store)
      ensures outbound == old(outbound) + [Call.SaveToken(record)]
      ensures notifications == old(notifications)
    {
      outbound := outbound + [Call.SaveToken(record)];
      fault := up.storeSave(record);
      if fault.None? {
        store := record;
      }
    }

    /** The outer catch of /add-record. */
    method ReportFailure(e: CallError, up: Upstreams) returns (response: HttpResponse)
      modifies this
      ensures response == HttpResponse(500, PlainText(AddRecordFailedText))
      ensures notifications == old(notifications) + [AlertText(Classify(e))]
      ensures store == old(store) && outbound == old(outbound)
    {
      var category := Classify(e);
      Notify(AlertText(category), up);
      response := HttpResponse(500, PlainText(AddRecordFailedText));
    }

    /** POST /add-record. */
    method AddRecord(input: RecordInput, saveClock: string, pageClock: string, up: Upstreams)
      returns (response: HttpResponse)
      modifies this
      ensures var run := AddRecordRun(config, old(store), input, saveClock, pageClock, up);
        response == run.response && store == run.store &&
        notifications == old(notifications) + run.notices &&
        outbound == old(outbound) + run.calls
    {
      var current := GetCurrentTokens(up);
      if current.Err? {
        response := ReportFailure(current.error, up);
        return;
      }
      var newTokens := RefreshAccessToken(current.value.refreshToken, up);
      if newTokens.Err? {
        response := ReportFailure(newTokens.error, up);
        return;
      }
      var pair := newTokens.value;
      var saveFault := SaveToken(Persisted(pair, saveClock), up);
      if saveFault.Some? {
        Notify(SaveTokenFailedText, up);
      }
      var request := PageRequestFor(config, pair, input, pageClock);
      outbound := outbound + [CreatePage(request)];
      var created := up.createPage(request);
      match created {
        case Ok(page) =>
          response := HttpResponse(200, Page(page));
        case Err(e) =>
          response := ReportFailure(e, up);
      }
    }

    /** GET /auth/callback with the query's `code`. */
    method AuthCallback(code: string, now: string, up: Upstreams) returns (response: HttpResponse)
      modifies this
      ensures var run := CallbackRun(config, old(store), code, now, up);
        response == run.response && store == run.store &&
        notifications == old(notifications) &&
        outbound == old(outbound) + run.calls
    {
      var request := TokenRequestFor(config, AuthorizationCode(code, config.redirectUri));
      outbound := outbound + [ExchangeToken(request)];
      var tokenRes := up.exchange(request);
      if tokenRes.Err? {
        response := HttpResponse(500, PlainText(AuthFailedText));
        return;
      }
      var saveFault := SaveToken(Persisted(tokenRes.value, now), up);
      if saveFault.None? {
        response := HttpResponse(200, PlainText(AuthSucceededText));
      } else {
        response := HttpResponse(500, PlainText(AuthFailedText));
      }
    }
  }
}
