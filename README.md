# Notion relay: token lifecycle and failure notification

A model of the relay service in `index.js`, which stands between an
application backend (a Laravel token store) and the Notion API. The model
covers the part of the service that makes decisions:

- `POST /add-record` fetches the stored credential pair. It then always
  exchanges the stored refresh token for a new pair (the refresh grant,
  section 6 of RFC 6749) and saves the new pair back to the store. A failed
  save only sends an alert; the handler goes on to create the Notion page
  with the new access token.
- Any error that reaches the handler's outer catch is classified by an
  ordered rule: status 401, then status 500 or more, then the code
  `ECONNREFUSED`, then anything else. Exactly one fixed alert is sent for the
  category, and the caller gets the same generic 500 in every case.
- The Discord notifier is best-effort: a failed webhook post is swallowed.
- The page body maps `{day, summary, learned}` onto the database's fixed
  property shape. It is dated with the part of the ISO 8601 timestamp
  before the first `T`, which is the calendar date (in UTC, as
  `toISOString()` writes it).
- `GET /auth/callback` exchanges an authorization code (section 4.1 of
  RFC 6749) and saves the pair. Any failure gives 500 and sends no alert.
- `GET /auth/url` returns the authorization URL.

Every outbound call is an abstract outcome, taken from an `Upstreams` value:
- the store GET either faults or returns the store's current record;
- the token exchange, the store save, the page create and the webhook post
  each answer as a function of the request sent to them.

The handlers are methods of the class `Relay.Service`. Its state is:
- `store`: the token store's record;
- `notifications`: an append-only log of the alerts attempted (whether or not the webhook
  delivered them);
- `outbound`: a ghost trace of the requests sent to the store and to Notion.

Each handler is proved equal, in its response and in its effect on that
state, to a pure function (`AddRecordRun`, `CallbackRun`). The lemmas state
the service's promises about those functions.

Files:
- `outcomes.dfy`: outcomes of outbound calls.
- `strings.dfy`: `split("T")[0]` and ISO timestamps.
- `notion.dfy`: token requests, the authorization URL and the page request.
- `failures.dfy`: classification and alert texts.
- `relay.dfy`: the handlers and their lemmas.

Two facts about the classification in the code:
- The `ECONNREFUSED` branch tests only `err.code`, whether or not there was
  a response.
- A store fetch that answers 401 or 5xx is classified as `AuthExpired` or
  `UpstreamServerError`, like a Notion failure.

## Model

| member | source | states |
|---|---|---|
| `Strings.PrefixBefore` | index.js:124 | `split(sep)[0]` is the prefix of the string up to, not including, the first separator, or the whole string when there is none |
| `Strings.PrefixBeforeUnique` | index.js:124 | those three properties determine the result of `split(sep)[0]` |
| `Strings.DateOfIsoTimestamp` | index.js:124 | for a `toISOString()` timestamp, the part before the first `T` is its first ten characters, an ISO 8601 calendar date |
| `Notion.AuthUrlRoundTrip` | index.js:54-56 | the authorization URL embeds the client id and the encoded redirect URI so that both read back out of it (client id free of `&`) |
| `Notion.AuthorizationRoundTrip` | index.js:132 | the Authorization header presents exactly the given access token under the bearer scheme |
| `Notion.TokenRequestFor` | index.js:25-36 | builds the token-endpoint POST: the grant in the body with the configured client id and secret, which also serve as basic authentication; no contract of its own, see `Relay.RefreshIsUnconditional` and `Relay.CallbackRun` |
| `Notion.AuthUrl` | index.js:54-56 | builds the authorization URL; no contract of its own, see `Notion.AuthUrlRoundTrip` and `Relay.AuthUrlResponse` |
| `Notion.Authorization` | index.js:132 | builds the `Bearer` header value; no contract of its own, see `Notion.AuthorizationRoundTrip` |
| `Notion.PageFor` | index.js:121-128 | builds the page-create body; no contract of its own, see `Notion.PageForContents` and `Relay.AddRecordHealthy` |
| `Notion.PageForContents` | index.js:121-128 | the page body holds `day`, `summary` and `learned` at `Day.number`, `Summary.title[0].text.content` and `Learned.rich_text[0].text.content`, the two texts as one-element lists, under the configured database, whatever the timestamp; for an ISO timestamp it is dated with its calendar date, whatever the record |
| `Failures.Classify` | index.js:141-157 | the classification is ordered and total: 401 wins over everything, 500 or more applies only when the status is not 401, `ECONNREFUSED` only when neither applies, `Other` otherwise; each category holds exactly when its own test passes and all earlier ones fail |
| `Failures.AlertText` | index.js:142-154 | the fixed alert text of each category; no contract of its own, see `Failures.AlertTextsDistinct` |
| `Failures.AlertTextsDistinct` | index.js:113-157 | each category has its own fixed alert text, from which the category reads back; the save-token alert is none of them |
| `Relay.Persisted` | index.js:105-110 | the record saved for a new pair; no contract of its own, see `Relay.SavedRecordIsNewPair`, `Relay.AddRecordHealthy` and `Relay.CallbackRun` |
| `Relay.Caught` | index.js:140-158 | the outer catch of /add-record as a value; no contract of its own, see `Relay.AddRecordOutcomes` and `Relay.AddRecordFailurePoints` |
| `Relay.RefreshRequest` | index.js:101 | the refresh grant sent for the stored refresh token; no contract of its own, see `Relay.RefreshIsUnconditional` |
| `Relay.PageRequestFor` | index.js:119-137 | the whole page POST: bearer header, pinned Notion-Version and page body; no contract of its own, see `Relay.AddRecordHealthy` and `Relay.SavedRecordIsNewPair` |
| `Relay.AddRecordRun` | index.js:95-160 | one /add-record request as a value; no contract of its own, see `Relay.RefreshIsUnconditional` through `Relay.AddRecordHealthy` |
| `Relay.RefreshIsUnconditional` | index.js:97-101 | whenever the store answers, the next request is a refresh grant for exactly the stored refresh token and is the run's only token request; the stored expiry, fetch time and access token change nothing in the requests, alerts or response |
| `Relay.SaveFailureIsNonFatal` | index.js:104-116 | a failed save sends exactly the save-token alert, leaves the store unchanged and the page is still requested with the new access token; if Notion accepts it the caller gets 200 with Notion's page and that alert is the only one |
| `Relay.SavedRecordIsNewPair` | index.js:104-110 | after a successful refresh exactly one save is attempted, as the third request; the saved record is the new pair's access token, refresh token and expiry with the save's timestamp; the old tokens are never written back; the page request presents the new access token |
| `Relay.AddRecordOutcomes` | index.js:139-158 | every run either succeeds with 200 and Notion's page unchanged, with at most the save-token alert, or fails with 500 and the generic body whatever the cause, its last alert a category alert preceded by at most the save-token alert |
| `Relay.AddRecordFailurePoints` | index.js:97-158 | a failure of the store fetch, the refresh or the page create is classified and reported with one category alert, the run's last, and a generic 500, and no request follows it |
| `Relay.AddRecordHealthy` | index.js:95-139 | with healthy upstreams the new pair is saved, no alert is sent, the page goes to the configured database with the pinned Notion-Version, the new token and the record's fields, and Notion's page is returned with 200 |
| `Relay.CallbackRun` | index.js:61-92 | the callback exchanges the query's code with the configured redirect URI, then makes exactly one save request, of the exchanged pair, when the exchange succeeds and none otherwise, never alerts, answers 200 exactly when the exchange and the save both succeed (then the store holds the exchanged pair), and otherwise answers 500 with the failure text and leaves the store unchanged |
| `Relay.AuthUrlResponse` | index.js:53-58 | `/auth/url` answers 200 with a URL from which the configured client id and the encoding of the configured redirect URI (the one the callback sends) read back |
| `Relay.Service.constructor` | index.js:13-15 | the service starts with the configuration, the store's initial record, no alerts and no requests |
| `Relay.Service.Notify` | index.js:42-50 | notifying always returns normally and appends the message to the log, whether or not the webhook post fails; nothing else changes |
| `Relay.Service.GetCurrentTokens` | index.js:18-21 | the store GET returns the store's record or throws its error |
| `Relay.Service.RefreshAccessToken` | index.js:24-39 | the refresh sends a refresh grant for the given token with the configured client id and secret and returns the endpoint's outcome; the request sent by add-record is stated in `Relay.RefreshIsUnconditional`, the callback's code grant in `Relay.CallbackRun` |
| `Relay.Service.SaveToken` | index.js:104-110 | a save request changes the store to the record only when it succeeds |
| `Relay.Service.ReportFailure` | index.js:140-158 | the outer catch appends the alert of the error's category and answers 500 with the generic body |
| `Relay.Service.AddRecord` | index.js:95-160 | the handler's response, new store, appended alerts and requests are those of `AddRecordRun` |
| `Relay.Service.AuthCallback` | index.js:61-92 | the handler's response, new store and requests are those of `CallbackRun`, and it appends no alert |

## Left out

- Express routing, `app.listen`, the port, `dotenv` and `process.env`: configuration is the `Config` value.
- `console.error` and `console.log`: operator logging has no effect on the decisions modelled.
- The HTTP calls themselves (axios): each is an abstract outcome in `Upstreams`. The store GET is assumed to return the record last saved to it. The Laravel store is not part of this model.
- The clock: `new Date().toISOString()` readings are parameters, and add-record takes its two readings separately.
- `encodeURIComponent`: the encoder is an opaque function parameter, applied to the configured redirect URI.
- Strings.IsIsoTimestamp: covers years 0 through 9999 only; `toISOString()` writes other years with a sign and six digits. Like `Strings.IsCalendarDate`, it checks the digit-and-dash shape, not month and day ranges.
- Notion.AuthUrlRoundTrip: holds only for a client id without `&`, because the URL does not encode the client id.
- JavaScript's dynamic typing: a missing `code` query, a response body without `refresh_token`, or a non-numeric `day` are passed through as-is in the source. The model gives these values fixed types. In particular `day` is a JSON number, which may be fractional, and the model types it as an integer.
- Concurrency between simultaneous requests, including two requests refreshing the same token: the source has no synchronisation, and each handler runs its calls in sequence.
- Notion's own validation of the page body and the content of the created page, which is passed back untouched.
