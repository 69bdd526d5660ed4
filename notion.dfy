/**
 * The relay's side of the Notion API: OAuth token requests, the
 * authorization URL, and the page-create request built for one record.
 */
module Notion {
  import opened Outcomes
  import opened Strings

  /** The configuration the relay reads from its environment. */
  datatype Config = Config(clientId: string, clientSecret: string, redirectUri: string, databaseId: string)

  /** A credential pair as the token endpoint returns it: only the fields the relay reads. */
  datatype TokenPair = TokenPair(accessToken: string, refreshToken: string, expiresIn: int)

  /** The grant of a token request. */
  datatype Grant =
    | AuthorizationCode(code: string, redirectUri: string)  // section 4.1.3 of RFC 6749
    | RefreshToken(refreshToken: string)                     // section 6 of RFC 6749

  /**
   * A POST to the token endpoint: the grant, and the client credentials,
   * which go both in the body and as HTTP basic authentication.
   */
  datatype TokenRequest = TokenRequest(grant: Grant, clientId: string, clientSecret: string)

  function TokenRequestFor(cfg: Config, grant: Grant): TokenRequest
  {
    TokenRequest(grant, cfg.clientId, cfg.clientSecret)
  }

  // ---------------------------------------------------------------------------
  // The authorization URL

  const AuthorizeQuery := "https://api.notion.com/v1/oauth/authorize?client_id="
  const AuthorizeParams := "&response_type=code&owner=user&redirect_uri="

  /**
   * The authorization URL for `clientId`. `encodedRedirectUri` is the
   * redirect URI after percent-encoding, whose encoder is not part of this model.
   */
  function AuthUrl(clientId: string, encodedRedirectUri: string): string
  {
    AuthorizeQuery + clientId + AuthorizeParams + encodedRedirectUri
  }

  /** Reads the client id and the encoded redirect URI back out of an authorization URL. */
  function ParseAuthUrl(url: string): Option<(string, string)>
  {
    if AuthorizeQuery <= url then
      var rest := url[|AuthorizeQuery|..];
      var clientId := PrefixBefore(rest, '&');
      var tail := rest[|clientId|..];
      if AuthorizeParams <= tail then Some((clientId, tail[|AuthorizeParams|..])) else None
    else
      None
  }

  /** Both values embedded in the URL are recovered, provided the client id holds no '&'. */
  lemma AuthUrlRoundTrip(clientId: string, encodedRedirectUri: string)
    requires '&' !in clientId
    ensures ParseAuthUrl(AuthUrl(clientId, encodedRedirectUri)) == Some((clientId, encodedRedirectUri))
  {
    var url := AuthUrl(clientId, encodedRedirectUri);
    var rest := clientId + AuthorizeParams + encodedRedirectUri;
    assert url == AuthorizeQuery + rest;
    assert url[|AuthorizeQuery|..] == rest;
    assert rest[|clientId|] == AuthorizeParams[0] == '&';
    PrefixBeforeUnique(rest, '&', clientId);
    assert rest[|clientId|..] == AuthorizeParams + encodedRedirectUri;
  }

  // ---------------------------------------------------------------------------
  // Creating a page

  /** The fields of a POST to /add-record. */
  datatype RecordInput = RecordInput(day: int, summary: string, learned: string)

  datatype TextContent = TextContent(content: string)
  datatype RichText = RichText(text: TextContent)

  /** The database's four properties: Date, Day, Summary (the title) and Learned. */
  datatype Properties = Properties(
    dateStart: string,
    dayNumber: int,
    summaryTitle: seq<RichText>,
    learnedRichText: seq<RichText>)

  /** The body of a page-create request. */
  datatype PageCreate = PageCreate(parentDatabaseId: string, properties: Properties)

  /** A page-create request: its Authorization and Notion-Version headers and its body. */
  datatype PageRequest = PageRequest(authorization: string, notionVersion: string, body: PageCreate)

  /** The created page, passed back to the caller untouched. */
  datatype NotionPage = NotionPage(json: string)

  const NotionVersion := "2022-06-28"
  const BearerScheme := "Bearer "

  /** The Authorization header value that presents `accessToken`. */
  function Authorization(accessToken: string): string
  {
    BearerScheme + accessToken
  }

  /** The token an Authorization header value presents, if it uses the bearer scheme. */
  function BearerToken(header: string): Option<string>
  {
    if BearerScheme <= header then Some(header[|BearerScheme|..]) else None
  }

  lemma AuthorizationRoundTrip(accessToken: string)
    ensures BearerToken(Authorization(accessToken)) == Some(accessToken)
  {
    assert Authorization(accessToken)[|BearerScheme|..] == accessToken;
  }

  /**
   * The page for one record, created at the instant whose ISO timestamp
   * is `now`, in the database `databaseId`.
   */
  function PageFor(databaseId: string, input: RecordInput, now: string): PageCreate
  {
    PageCreate(
      databaseId,
      Properties(
        PrefixBefore(now, 'T'),
        input.day,
        [RichText(TextContent(input.summary))],
        [RichText(TextContent(input.learned))]))
  }

  /**
   * Reads a record back out of a page body: `Day.number`,
   * `Summary.title[0].text.content` and `Learned.rich_text[0].text.content`.
   */
  function RecordOf(page: PageCreate): Option<RecordInput>
  {
    var props := page.properties;
    if |props.summaryTitle| == 0 || |props.learnedRichText| == 0 then None
    else Some(RecordInput(props.dayNumber, props.summaryTitle[0].text.content, props.learnedRichText[0].text.content))
  }

  /**
   * The page carries the record's three fields where they are read back,
   * the two texts each as a one-element list, in the configured database;
   * for an ISO timestamp `now` it is dated with the calendar date of `now`,
   * whatever the record holds.
   */
  lemma PageForContents(databaseId: string, input: RecordInput, now: string)
    ensures RecordOf(PageFor(databaseId, input, now)) == Some(input)
    ensures |PageFor(databaseId, input, now).properties.summaryTitle| == 1
    ensures |PageFor(databaseId, input, now).properties.learnedRichText| == 1
    ensures PageFor(databaseId, input, now).parentDatabaseId == databaseId
    ensures IsIsoTimestamp(now) ==>
              PageFor(databaseId, input, now).properties.dateStart == now[..10] &&
              IsCalendarDate(PageFor(databaseId, input, now).properties.dateStart)
  {
    if IsIsoTimestamp(now) {
      DateOfIsoTimestamp(now);
    }
  }
}
