/**
 * How the /add-record handler classifies a caught error, and the fixed
 * alert texts it sends to the notification channel.
 */
module Failures {
  import opened Outcomes

  datatype FailureCategory = AuthExpired | UpstreamServerError | StoreUnreachable | Other

  const ConnectionRefused := "ECONNREFUSED"

  /**
   * The ordered rule: status 401, then any status of 500 or more, then the
   * code ECONNREFUSED, then everything else. The rule is total, and each
   * category holds exactly when its own test passes and every earlier one fails.
   */
  function Classify(e: CallError): (c: FailureCategory)
    ensures c == AuthExpired <==> e.status == Some(401)
    ensures c == UpstreamServerError <==> e.status.Some? && e.status.value >= 500
    ensures c == StoreUnreachable <==>
              (e.status.None? || (e.status.value != 401 && e.status.value < 500)) &&
              e.code == Some(ConnectionRefused)
    ensures c == Other <==>
              (e.status.None? || (e.status.value != 401 && e.status.value < 500)) &&
              e.code != Some(ConnectionRefused)
  {
    if e.status == Some(401) then AuthExpired
    else if e.status.Some? && e.status.value >= 500 then UpstreamServerError
    else if e.code == Some(ConnectionRefused) then StoreUnreachable
    else Other
  }

  /** The alert sent for each category. */
  function AlertText(c: FailureCategory): string
  {
    match c
    case AuthExpired => "❌【Notion連携】認証エラー: refresh_token失効"
    case UpstreamServerError => "❌【Notion連携】Notion APIのサーバー障害"
    case StoreUnreachable => "❌【Notion連携】Laravelとの通信エラー"
    case Other => "❌【Notion連携】その他エラー発生"
  }

  /** The alert sent when saving the refreshed tokens fails. */
  const SaveTokenFailedText := "❌【Notion連携】Laravelとの通信エラー（save-token失敗）"

  /** The category an alert text reports; `None` for any other text. */
  function AlertCategory(message: string): Option<FailureCategory>
  {
    if message == AlertText(AuthExpired) then Some(AuthExpired)
    else if message == AlertText(UpstreamServerError) then Some(UpstreamServerError)
    else if message == AlertText(StoreUnreachable) then Some(StoreUnreachable)
    else if message == AlertText(Other) then Some(Other)
    else None
  }

  /**
   * The four alert texts are distinct, so an alert names its category;
   * the save-token alert is none of them.
   */
  lemma AlertTextsDistinct(c: FailureCategory)
    ensures AlertCategory(AlertText(c)) == Some(c)
    ensures AlertCategory(SaveTokenFailedText) == None
  {
  }
}
