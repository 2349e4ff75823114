/**
 * The history table (src/components/history/HistoryTable.tsx): a status
 * filter, a search box and pages of 20 workflows. The component's state
 * (`page`, `status`, `queryInput`, `query`, `total`) is a class whose
 * methods are the event handlers; the request it sends is computed from
 * that state. The fetch itself is left out: `Loaded` takes its total.
 */
module HistoryTable {
  import opened Optional
  import opened Strings
  import opened Types
  import opened JsNumbers
  import WorkflowsRoute
  import AgentCard

  /** `PAGE_SIZE`. */
  const PageSize: nat := 20

  /** `Math.ceil(total / PAGE_SIZE)` for a non-negative total. */
  function CeilDiv(total: nat, size: nat): (n: nat)
    requires size > 0
    ensures (n - 1) * size < total <= n * size || (total == 0 && n == 0)
  {
    (total + size - 1) / size
  }

  /** `totalPages`: at least one page, and just enough pages of 20 to hold `total`. */
  function TotalPages(total: nat): (n: nat)
    ensures n >= 1
    ensures total <= n * PageSize
    ensures n > 1 ==> (n - 1) * PageSize < total
  {
    var pages := CeilDiv(total, PageSize);
    if pages < 1 then 1 else pages
  }

  /** `formatDuration` of the table. */
  function FormatDuration(ms: int): string
  {
    var s := ms / 1000;
    var m := s / 60;
    if m > 0 then IntToString(m) + "m " + IntToString(s % 60) + "s" else IntToString(s) + "s"
  }

  /** The Duration cell: the time from creation to completion, or "-" while not completed. */
  function DurationCell(w: Workflow): string
  {
    match w.completedAt
    case Some(_) => FormatDuration(Elapsed(w))
    case None => "-"
  }

  /**
   * The Duration cell is "-" exactly for a workflow that has not completed;
   * a completed one shows its creation-to-completion time in the card's
   * seconds-or-minutes format.
   */
  lemma DurationCellShape(w: Workflow)
    ensures DurationCell(w) == "-" <==> w.completedAt.None?
    ensures w.completedAt.Some? ==> DurationCell(w) == AgentCard.SecondsDisplay(Elapsed(w) / 1000)
  {
    match w.completedAt
    case None =>
    case Some(_) =>
      FormatDurationShape(Elapsed(w));
  }

  /** The milliseconds from creation to completion of a completed workflow. */
  function Elapsed(w: Workflow): int
    requires w.completedAt.Some?
  {
    w.completedAt.value as int - w.createdAt as int
  }

  /** The table's formatter is the card's rule on whole seconds, and never prints "-". */
  lemma FormatDurationShape(ms: int)
    ensures FormatDuration(ms) == AgentCard.SecondsDisplay(ms / 1000)
    ensures FormatDuration(ms) != "-"
  {
    var s := ms / 1000;
    assert s / 60 > 0 <==> s >= 60;
    if s / 60 > 0 {
      NotDash(IntToString(s / 60) + "m " + IntToString(s % 60));
    } else {
      NotDash(IntToString(s));
    }
  }

  /** A text ending in "s" is not "-". */
  lemma NotDash(a: string)
    ensures a + "s" != "-"
  {
    assert (a + "s")[|a|] == 's';
  }

  /** The names of the list request's query parameters. */
  datatype ParamKey = LimitKey | OffsetKey | StatusKey | QueryKey

  /** The parameters of the list request, in the order they are set. */
  function RequestParams(page: int, status: Option<WorkflowStatus>, query: string): seq<(ParamKey, string)>
    requires page >= 1
  {
    [(LimitKey, NatToString(PageSize)), (OffsetKey, NatToString((page - 1) * PageSize))]
    + (if status.Some? then [(StatusKey, StatusName(status.value))] else [])
    + (if Trim(query) != "" then [(QueryKey, Trim(query))] else [])
  }

  /** `searchParams.get(key)`: the value last set for `key`, if any. */
  function Param(ps: seq<(ParamKey, string)>, key: ParamKey): Option<string>
  {
    if ps == [] then None
    else if ps[|ps| - 1].0 == key then Some(ps[|ps| - 1].1)
    else Param(ps[..|ps| - 1], key)
  }

  class HistoryView {
    var page: int
    /** None for "all". */
    var status: Option<WorkflowStatus>
    var queryInput: string
    var query: string
    var total: nat

    ghost predicate Valid()
      reads this
    {
      page >= 1
    }

    constructor()
      ensures Valid()
      ensures page == 1 && status == None && queryInput == "" && query == "" && total == 0
    {
      page := 1;
      status := None;
      queryInput := "";
      query := "";
      total := 0;
    }

    /** The Prev button. */
    method Prev()
      requires Valid()
      modifies this
      ensures Valid()
      ensures page == if old(page) - 1 < 1 then 1 else old(page) - 1
      ensures status == old(status) && queryInput == old(queryInput) && query == old(query) && total == old(total)
    {
      page := if page - 1 < 1 then 1 else page - 1;
    }

    /** The Next button. */
    method Next()
      requires Valid()
      modifies this
      ensures Valid()
      ensures page == if old(page) + 1 < TotalPages(total) then old(page) + 1 else TotalPages(total)
      ensures old(page) < TotalPages(total) ==> page <= TotalPages(total)
      ensures status == old(status) && queryInput == old(queryInput) && query == old(query) && total == old(total)
    {
      var pages := TotalPages(total);
      page := if page + 1 < pages then page + 1 else pages;
    }

    /** Choosing a status in the select: the filter changes and the first page is shown. */
    method SelectStatus(s: Option<WorkflowStatus>)
      requires Valid()
      modifies this
      ensures Valid()
      ensures status == s && page == 1
      ensures queryInput == old(queryInput) && query == old(query) && total == old(total)
    {
      status := s;
      page := 1;
    }

    /** Typing in the search box changes only the input. */
    method Type(text: string)
      requires Valid()
      modifies this
      ensures Valid()
      ensures queryInput == text
      ensures page == old(page) && status == old(status) && query == old(query) && total == old(total)
    {
      queryInput := text;
    }

    /** `handleApplySearch`: the typed text becomes the query and the first page is shown. */
    method ApplySearch()
      requires Valid()
      modifies this
      ensures Valid()
      ensures page == 1 && query == old(queryInput)
      ensures status == old(status) && queryInput == old(queryInput) && total == old(total)
    {
      page := 1;
      query := queryInput;
    }

    /** A list response arrived: `data.total || 0`. */
    method Loaded(reported: Option<nat>)
      requires Valid()
      modifies this
      ensures Valid()
      ensures total == if reported.Some? then reported.value else 0
      ensures page == old(page) && status == old(status) && queryInput == old(queryInput) && query == old(query)
    {
      total := if reported.Some? then reported.value else 0;
    }

    /** The request the effect sends for the current state. */
    method Request() returns (ps: seq<(ParamKey, string)>)
      requires Valid()
      ensures ps == RequestParams(page, status, query)
    {
      ps := [(LimitKey, NatToString(PageSize)), (OffsetKey, NatToString((page - 1) * PageSize))];
      if status.Some? {
        ps := ps + [(StatusKey, StatusName(status.value))];
      }
      var q := Trim(query);
      if q != "" {
        ps := ps + [(QueryKey, q)];
      }
    }
  }

  /** From a valid page, Prev and Next keep the page within 1 .. totalPages. */
  lemma PagingStaysInRange(page: int, total: nat)
    requires 1 <= page <= TotalPages(total)
    ensures var prev := if page - 1 < 1 then 1 else page - 1; 1 <= prev <= TotalPages(total)
    ensures var next := if page + 1 < TotalPages(total) then page + 1 else TotalPages(total); 1 <= next <= TotalPages(total)
  {
  }

  /**
   * The list route reads the request back as it was meant: 20 per page from
   * offset (page - 1) * 20, the chosen status, and the trimmed search term.
   */
  lemma RouteReadsRequest(page: int, status: Option<WorkflowStatus>, query: string)
    requires page >= 1
    ensures var ps := RequestParams(page, status, query);
            && WorkflowsRoute.Limit(Param(ps, LimitKey)) == PageSize
            && WorkflowsRoute.Offset(Param(ps, OffsetKey)) == (page - 1) * PageSize
            && (status.Some? ==> Param(ps, StatusKey).Some? && WorkflowsRoute.StatusNamed(Param(ps, StatusKey).value) == status)
            && (status.None? ==> Param(ps, StatusKey).None?)
            && (Trim(query) != "" ==> Param(ps, QueryKey) == Some(Trim(query)))
            && (Trim(query) == "" ==> Param(ps, QueryKey).None?)
  {
    ParamsOf(page, status, query);
    LimitOfPageSize();
    OffsetOfNat((page - 1) * PageSize);
    if status.Some? {
      WorkflowsRoute.StatusNamedInverse(status.value);
    }
  }

  /** The value each key has in the request. */
  lemma ParamsOf(page: int, status: Option<WorkflowStatus>, query: string)
    requires page >= 1
    ensures var ps := RequestParams(page, status, query);
            && Param(ps, LimitKey) == Some(NatToString(PageSize))
            && Param(ps, OffsetKey) == Some(NatToString((page - 1) * PageSize))
            && Param(ps, StatusKey) == (if status.Some? then Some(StatusName(status.value)) else None)
            && Param(ps, QueryKey) == (if Trim(query) != "" then Some(Trim(query)) else None)
  {
    var head := [(LimitKey, NatToString(PageSize)), (OffsetKey, NatToString((page - 1) * PageSize))];
    var st: seq<(ParamKey, string)> := if status.Some? then [(StatusKey, StatusName(status.value))] else [];
    var qs: seq<(ParamKey, string)> := if Trim(query) != "" then [(QueryKey, Trim(query))] else [];
    var ps := RequestParams(page, status, query);
    assert ps == (head + st) + qs;
    HeadParams(page);
    forall key | key != StatusKey ensures Param(head + st, key) == Param(head, key) {
      ParamSkips(head, st, key);
    }
    if st != [] {
      ParamSnoc(head, StatusKey, st[0].1, StatusKey);
    } else {
      assert head + st == head;
    }
    forall key | key != QueryKey ensures Param(ps, key) == Param(head + st, key) {
      ParamSkips(head + st, qs, key);
    }
    if qs != [] {
      ParamSnoc(head + st, QueryKey, qs[0].1, QueryKey);
    } else {
      assert ps == head + st;
    }
  }

  /** The route reads the page size and the offset of the first two parameters. */
  lemma HeadParams(page: int)
    requires page >= 1
    ensures var head := [(LimitKey, NatToString(PageSize)), (OffsetKey, NatToString((page - 1) * PageSize))];
            && Param(head, LimitKey) == Some(NatToString(PageSize))
            && Param(head, OffsetKey) == Some(NatToString((page - 1) * PageSize))
            && Param(head, StatusKey).None? && Param(head, QueryKey).None?
  {
    var limit := (LimitKey, NatToString(PageSize));
    var offset := (OffsetKey, NatToString((page - 1) * PageSize));
    assert [limit, offset] == ([] + [limit]) + [offset];
    forall key ensures Param([limit, offset], key) == if key == OffsetKey then Some(offset.1) else Param([limit], key) {
      ParamSnoc([limit], offset.0, offset.1, key);
    }
    forall key ensures Param([limit], key) == if key == LimitKey then Some(limit.1) else None {
      ParamSnoc([], limit.0, limit.1, key);
    }
  }

  /** A limit of "20" is taken as it is. */
  lemma LimitOfPageSize()
    ensures WorkflowsRoute.Limit(Some(NatToString(PageSize))) == PageSize
  {
    assert NatToString(20) == "20" by {
      assert NatToString(2) == "2";
    }
    ParseIntOfNat(20);
  }

  /** An offset spelled out from a natural number is read back as that number. */
  lemma OffsetOfNat(n: nat)
    ensures WorkflowsRoute.Offset(Some(NatToString(n))) == n
  {
    ParseIntOfNat(n);
    assert WorkflowsRoute.OrFallback(Some(NatToString(n)), "0") == NatToString(n);
  }

  /** Parameters appended without `key` leave its value as it was. */
  lemma {:induction false} ParamSkips(ps: seq<(ParamKey, string)>, more: seq<(ParamKey, string)>, key: ParamKey)
    requires forall i :: 0 <= i < |more| ==> more[i].0 != key
    ensures Param(ps + more, key) == Param(ps, key)
    decreases |more|
  {
    if more == [] {
      assert ps + more == ps;
    } else {
      var front := more[..|more| - 1];
      var last := more[|more| - 1];
      assert ps + more == (ps + front) + [last];
      ParamSnoc(ps + front, last.0, last.1, key);
      ParamSkips(ps, front, key);
    }
  }

  /** Setting one more parameter: it is the value of its own key, and no other key changes. */
  lemma ParamSnoc(ps: seq<(ParamKey, string)>, k: ParamKey, v: string, key: ParamKey)
    ensures Param(ps + [(k, v)], key) == if k == key then Some(v) else Param(ps, key)
  {
    assert (ps + [(k, v)])[..|ps|] == ps;
  }
}
