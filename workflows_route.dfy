/**
 * `GET /api/workflows` (src/app/api/workflows/route.ts): the history list.
 * The query parameters are normalised into a page size, an offset and the
 * list filters, and the same filters feed both the page and the total.
 *
 * A parameter is `None` when absent from the query string.
 */
module WorkflowsRoute {
  import opened Optional
  import opened Types
  import opened JsNumbers
  import opened Queries

  const DefaultLimit: nat := 50
  const MaxLimit: nat := 200

  /** `param || fallback`: an absent or empty parameter takes the fallback. */
  function OrFallback(param: Option<string>, fallback: string): string
  {
    if param.Some? && param.value != "" then param.value else fallback
  }

  /** The `limit` the route uses. */
  function Limit(param: Option<string>): (n: nat)
    ensures 1 <= n <= MaxLimit
    ensures var raw := ParseInt(OrFallback(param, "50"));
            && (raw.None? || raw.value < 1 ==> n == DefaultLimit)
            && (raw.Some? && 1 <= raw.value <= MaxLimit ==> n == raw.value)
            && (raw.Some? && raw.value > MaxLimit ==> n == MaxLimit)
  {
    match ParseInt(OrFallback(param, "50"))
    case None => DefaultLimit
    case Some(raw) => if raw < 1 then DefaultLimit else if raw < MaxLimit then raw else MaxLimit
  }

  /** The `offset` the route uses. */
  function Offset(param: Option<string>): (n: nat)
    ensures var raw := ParseInt(OrFallback(param, "0"));
            && (raw.None? || raw.value < 0 ==> n == 0)
            && (raw.Some? && raw.value >= 0 ==> n == raw.value)
  {
    match ParseInt(OrFallback(param, "0"))
    case None => 0
    case Some(raw) => if raw < 0 then 0 else raw
  }

  /** The status a `status` parameter names, if any. */
  function StatusNamed(s: string): Option<WorkflowStatus>
  {
    match s
    case "pending" => Some(Pending)
    case "running" => Some(Running)
    case "paused" => Some(Paused)
    case "completed" => Some(Completed)
    case "failed" => Some(Failed)
    case "cancelled" => Some(Cancelled)
    case _ => None
  }

  /** Each status is found again under its own name. */
  lemma StatusNamedInverse(s: WorkflowStatus)
    ensures StatusNamed(StatusName(s)) == Some(s)
  {
  }

  /** The JSON body of the reply. */
  datatype ListReply = ListReply(workflows: seq<Workflow>, total: nat, limit: nat, offset: nat)

  /**
   * The filters of a request: a `status` or `q` parameter enters them only
   * when it is not empty. None when the status names no workflow status:
   * such a status is compared with the stored statuses all the same, and no
   * row has it.
   */
  function FiltersOf(statusParam: Option<string>, qParam: Option<string>): (f: Option<ListFilters>)
    ensures f.Some? ==> (f.value.q.Some? <==> qParam.Some? && qParam.value != "")
    ensures f.Some? && f.value.q.Some? ==> f.value.q == qParam
    ensures f.Some? ==> (f.value.status.Some? <==> statusParam.Some? && statusParam.value != "")
    ensures f.None? <==> statusParam.Some? && statusParam.value != "" && StatusNamed(statusParam.value).None?
  {
    var q := if qParam.Some? && qParam.value != "" then qParam else None;
    if statusParam.Some? && statusParam.value != "" then
      match StatusNamed(statusParam.value)
      case Some(status) => Some(ListFilters(Some(status), q))
      case None => None
    else Some(ListFilters(None, q))
  }

  /** `GET`: one page of the filtered listing, and the size of the whole listing. */
  function Get(db: Db, limitParam: Option<string>, offsetParam: Option<string>,
               statusParam: Option<string>, qParam: Option<string>, like: (string, string) -> bool): (r: ListReply)
    requires WellFormed(db)
    ensures r.limit == Limit(limitParam) && r.offset == Offset(offsetParam)
    ensures 1 <= r.limit <= MaxLimit && |r.workflows| <= r.limit
    ensures FiltersOf(statusParam, qParam).None? ==> r.workflows == [] && r.total == 0
  {
    var limit := Limit(limitParam);
    var offset := Offset(offsetParam);
    match FiltersOf(statusParam, qParam)
    case None => ListReply([], 0, limit, offset)
    case Some(filters) =>
      ListPage(db, limit, offset, filters, like);
      ListReply(ListWorkflows(db, limit, offset, filters, like), CountWorkflows(db, filters, like), limit, offset)
  }

  /**
   * The same filters feed the page and the total: the total counts every
   * workflow they let through, and the page is the one `listWorkflows`
   * cuts from that same listing (see `Queries.ListPage`).
   */
  lemma GetPagesTheFilteredListing(db: Db, limitParam: Option<string>, offsetParam: Option<string>,
                                   statusParam: Option<string>, qParam: Option<string>, like: (string, string) -> bool)
    requires WellFormed(db)
    requires FiltersOf(statusParam, qParam).Some?
    ensures var f := FiltersOf(statusParam, qParam).value;
            var r := Get(db, limitParam, offsetParam, statusParam, qParam, like);
            && r.total == CountWorkflows(db, f, like)
            && r.workflows == ListWorkflows(db, r.limit, r.offset, f, like)
  {
    var f := FiltersOf(statusParam, qParam).value;
    assert Get(db, limitParam, offsetParam, statusParam, qParam, like)
        == ListReply(ListWorkflows(db, Limit(limitParam), Offset(offsetParam), f, like), CountWorkflows(db, f, like),
                     Limit(limitParam), Offset(offsetParam));
  }

  /** parseInt("50") and parseInt("0"), the two fallbacks. */
  lemma Fallbacks()
    ensures ParseInt("50") == Some(50) && ParseInt("0") == Some(0)
  {
    assert Strings.NatToString(5) == "5";
    assert Strings.NatToString(50) == "50";
    ParseIntOfNat(50);
    assert Strings.NatToString(0) == "0";
    ParseIntOfNat(0);
  }

  /** With no parameters at all, every stored workflow is counted and the page size is 50 from offset 0. */
  lemma GetDefaults(db: Db, like: (string, string) -> bool)
    requires WellFormed(db)
    ensures var r := Get(db, None, None, None, None, like);
            && r.limit == 50 && r.offset == 0
            && r.total == |db.workflowOrder|
  {
    Fallbacks();
    assert FiltersOf(None, None) == Some(NoFilters);
    AllListed(db, like);
  }

  /** With no filter, the listing is every stored workflow once. */
  lemma AllListed(db: Db, like: (string, string) -> bool)
    requires WellFormed(db)
    ensures |Listing(db, NoFilters, like)| == |db.workflowOrder|
  {
    ListingUnfiltered(db, db.workflowOrder, like);
  }

  /** With no filter, `NewestFirst` keeps every id of `order`. */
  lemma {:induction false} ListingUnfiltered(db: Db, order: seq<string>, like: (string, string) -> bool)
    requires forall k :: k in order ==> k in db.workflows
    ensures |NewestFirst(db, order, NoFilters, like)| == |order|
  {
    if order != [] {
      ListingUnfiltered(db, order[..|order| - 1], like);
    }
  }
}
