/**
 * Background message handler `check-sync-status`: maps the requesting site to a
 * `cookies_type` category, looks up the `user_auth_details` row of the fixed user for
 * that category and shapes the reply `{success, inSync, message?, error?}`.
 * The store is an input: a function from row key to what awaiting the query yields.
 */
module CheckSyncStatus {
  import opened Wrappers

  /** The `cookies_type` column: the closed set of site categories. */
  datatype CookiesType = Gradescope | Courseworks | Miscellaneous

  /** The user every lookup is made for; hard-coded in the handler. */
  const CurrentUserId: string := "123e4567-e89b-12d3-a456-426614174000"

  const NoRecordMessage: string := "No sync record found"

  /**
   * The category of the request's `site` (None when the body carries no `site`).
   * Total: exactly "gradescope" and "canvas" have a category of their own.
   */
  function CookiesTypeOf(site: Option<string>): (c: CookiesType)
    ensures c == Gradescope <==> site == Some("gradescope")
    ensures c == Courseworks <==> site == Some("canvas")
    ensures c == Miscellaneous <==> site != Some("gradescope") && site != Some("canvas")
  {
    if site == Some("gradescope") then Gradescope
    else if site == Some("canvas") then Courseworks
    else Miscellaneous
  }

  /** The columns a lookup filters on: `user_id` and `cookies_type`. */
  datatype RowKey = RowKey(userId: string, cookiesType: CookiesType)

  /** The `in_sync` value of a returned row, as it arrives in JSON. */
  datatype JsonValue = JsonBool(b: bool) | JsonNull | JsonMissing | JsonText(s: string)

  datatype Row = Row(inSync: JsonValue)

  datatype StoreError = StoreError(code: string, message: string)

  /** What awaiting `.select('in_sync')...single()` gives: `{data, error}`, or an exception. */
  datatype QueryOutcome =
    | Answered(data: Option<Row>, error: Option<StoreError>)
    | Threw(message: Option<string>)

  /** The reply sent back: `{success, inSync, message?, error?}`. */
  datatype StatusResponse = StatusResponse(success: bool, inSync: bool, message: Option<string>, error: Option<string>)

  /** The row key the handler queries for a given `site`. */
  function LookupKey(site: Option<string>): (k: RowKey)
    ensures k.userId == CurrentUserId
    ensures k.cookiesType == Miscellaneous <==> site != Some("gradescope") && site != Some("canvas")
  {
    RowKey(CurrentUserId, CookiesTypeOf(site))
  }

  /** Turns the query outcome into the reply. */
  function Respond(outcome: QueryOutcome): (r: StatusResponse)
    ensures !r.success ==> !r.inSync
    ensures r.success <==> outcome.Answered? && outcome.error.None?
    ensures r.inSync <==> outcome == Answered(Some(Row(JsonBool(true))), None)
    ensures outcome.Answered? && outcome.error.Some? ==>
              r == StatusResponse(false, false, Some(NoRecordMessage), None)
    ensures outcome.Threw? ==> r == StatusResponse(false, false, None, outcome.message)
    ensures r.success ==> r.message == None && r.error == None
  {
    match outcome
    case Threw(m) => StatusResponse(false, false, None, m)
    case Answered(data, error) =>
      if error.Some? then
        StatusResponse(false, false, Some(NoRecordMessage), None)
      else
        var isInSync := data.Some? && data.value.inSync == JsonBool(true);
        StatusResponse(true, isInSync, None, None)
  }

  /** The whole handler: classify, query the store at one key, shape the reply. */
  function Handle(site: Option<string>, store: RowKey -> QueryOutcome): (r: StatusResponse)
    ensures !r.success ==> !r.inSync
    ensures r.inSync <==>
              store(RowKey(CurrentUserId, CookiesTypeOf(site))) == Answered(Some(Row(JsonBool(true))), None)
  {
    Respond(store(LookupKey(site)))
  }

  /** The reply depends on the store only through the row of (CurrentUserId, category of site). */
  lemma HandleReadsOneRow(site: Option<string>, store1: RowKey -> QueryOutcome, store2: RowKey -> QueryOutcome)
    requires store1(RowKey(CurrentUserId, CookiesTypeOf(site))) == store2(RowKey(CurrentUserId, CookiesTypeOf(site)))
    ensures Handle(site, store1) == Handle(site, store2)
  {
  }

  /** A missing row and any other store error give the same reply: they cannot be told apart. */
  lemma StoreErrorsIndistinguishable(d1: Option<Row>, e1: StoreError, d2: Option<Row>, e2: StoreError)
    ensures Respond(Answered(d1, Some(e1))) == Respond(Answered(d2, Some(e2)))
    ensures !Respond(Answered(d1, Some(e1))).success
  {
  }
}
