/**
 * The v2 operations router's own logic: the page arithmetic of
 * `list_operations`, the navigation links of `add_pagination_links`, the
 * state-dependent action links of `add_hateoas_links`, and the preview a
 * dry-run batch returns. A links dictionary is modelled by its keys (the
 * link relations) and, for pagination, the page each link points at; the
 * URLs themselves are not modelled.
 */
module RouterV2 {
  import opened Wrappers
  import opened PyText
  import opened Operations
  import SM = StateMachine

  /** `(total_items + size - 1) // size`, with `size` at least 1 as the query parameter demands. */
  function TotalPages(totalItems: nat, size: int): (r: nat)
    requires size >= 1
  {
    (totalItems + size - 1) / size
  }

  /** The page count is the ceiling of items over page size: the fewest pages that hold every item. */
  lemma TotalPagesIsCeiling(totalItems: nat, size: int)
    requires size >= 1
    ensures TotalPages(totalItems, size) * size >= totalItems
    ensures TotalPages(totalItems, size) > 0 ==> (TotalPages(totalItems, size) - 1) * size < totalItems
    ensures TotalPages(totalItems, size) == 0 <==> totalItems == 0
  {
    var n := totalItems + size - 1;
    var q := n / size;
    var m := n % size;
    assert n == q * size + m && 0 <= m < size;
  }

  lemma MulLe(a: int, b: int, c: int)
    requires a <= b && c >= 0
    ensures a * c <= b * c
  {
    assert b * c - a * c == (b - a) * c;
  }

  /** A page holds items beyond the current one exactly when the page count exceeds it. */
  lemma PageBeforeLast(page: int, totalItems: nat, size: int)
    requires size >= 1 && page >= 1
    ensures page < TotalPages(totalItems, size) <==> page * size < totalItems
  {
    TotalPagesIsCeiling(totalItems, size);
    var tp := TotalPages(totalItems, size);
    if page < tp {
      MulLe(page, tp - 1, size);
    } else {
      MulLe(tp, page, size);
    }
  }

  /** `PaginationInfo`. */
  datatype PaginationInfo = PaginationInfo(
    page: int,
    size: int,
    totalItems: nat,
    totalPages: nat,
    hasNext: bool,
    hasPrevious: bool)

  /** The `PaginationInfo` `list_operations` builds. */
  function Pagination(page: int, size: int, totalItems: nat): PaginationInfo
    requires page >= 1 && 1 <= size <= 500
  {
    var tp := TotalPages(totalItems, size);
    PaginationInfo(page, size, totalItems, tp, page < tp, page > 1)
  }

  /**
   * What the flags mean: there is a next page exactly when items remain after
   * this page, and a previous one exactly when this is not the first page.
   */
  lemma PaginationMeaning(page: int, size: int, totalItems: nat)
    requires page >= 1 && 1 <= size <= 500
    ensures Pagination(page, size, totalItems).hasNext <==> page * size < totalItems
    ensures Pagination(page, size, totalItems).hasPrevious <==> page != 1
    ensures Pagination(page, size, totalItems).totalPages == 0 <==> totalItems == 0
    ensures Pagination(page, size, totalItems).hasNext ==> Pagination(page, size, totalItems).totalPages >= 2
  {
    PageBeforeLast(page, totalItems, size);
    TotalPagesIsCeiling(totalItems, size);
  }

  /** `add_pagination_links`: each relation present, with the page its link asks for. */
  function PaginationLinks(page: int, size: int, totalItems: nat): map<string, int>
    requires size >= 1
  {
    var tp := TotalPages(totalItems, size);
    var links := map["self" := page];
    var links := if page > 1 then links["first" := 1] else links;
    var links := if page > 1 then links["prev" := page - 1] else links;
    var links := if page < tp then links["next" := page + 1] else links;
    if page < tp then links["last" := tp] else links
  }

  /**
   * The navigation links agree with `PaginationInfo`: "self" is always there;
   * "first" and "prev" exactly when there is a previous page, "next" and
   * "last" exactly when there is a next one; "next" and "last" point at pages
   * that hold items, and "prev" at the page before.
   */
  lemma PaginationLinksMeaning(page: int, size: int, totalItems: nat)
    requires page >= 1 && 1 <= size <= 500
    ensures var links := PaginationLinks(page, size, totalItems);
            var info := Pagination(page, size, totalItems);
            && links.Keys <= {"self", "first", "prev", "next", "last"}
            && "self" in links && links["self"] == page
            && ("first" in links <==> info.hasPrevious) && ("prev" in links <==> info.hasPrevious)
            && ("next" in links <==> info.hasNext) && ("last" in links <==> info.hasNext)
            && ("first" in links ==> links["first"] == 1)
            && ("prev" in links ==> links["prev"] == page - 1 >= 1)
            && ("next" in links ==> links["next"] == page + 1 && (links["next"] - 1) * size < totalItems)
            && ("last" in links ==> links["last"] == info.totalPages && (links["last"] - 1) * size < totalItems
                                    && links["last"] * size >= totalItems)
  {
    var tp := TotalPages(totalItems, size);
    TotalPagesIsCeiling(totalItems, size);
    PageBeforeLast(page, totalItems, size);
    if page < tp {
      assert (page + 1 - 1) * size < totalItems;
    }
  }

  /** `is_terminal_state(operation.status)`: `None` and unknown strings are not terminal. */
  predicate TerminalStatus(status: Option<string>) {
    status.Some? && SM.IsTerminalState(status.value)
  }

  /** `get_valid_transitions(operation.status)`: `None` gives no targets. */
  function NextStates(status: Option<string>): seq<string> {
    if status.Some? then SM.ValidTransitions(status.value) else []
  }

  /** The relation of the link to `next_state`. */
  function TransitionRel(nextState: string): string {
    "transition-to-" + Lower(nextState)
  }

  /** The relations the loop over the valid transitions adds. */
  function TransitionRels(names: seq<string>): (r: set<string>)
    ensures forall n | n in names :: TransitionRel(n) in r
    ensures forall x | x in r :: exists n | n in names :: x == TransitionRel(n)
    ensures forall x | x in r :: |x| >= 14
  {
    if names == [] then {} else {TransitionRel(names[0])} + TransitionRels(names[1..])
  }

  /** The relations whose presence does not come from the transition table. */
  function ActionRels(status: Option<string>): (r: set<string>)
    ensures forall x | x in r :: |x| < 14
  {
    {"self", "update"}
    + (if !TerminalStatus(status) then {"delete"} else {})
    + {"events"}
    + (if status == Some("RELEASED") then {"start"}
       else if status == Some("IN_PROGRESS") then {"finish", "pause"}
       else {})
  }

  /** The relations `add_hateoas_links` puts in an operation's `_links`. */
  function HateoasLinks(status: Option<string>): set<string> {
    ActionRels(status) + TransitionRels(NextStates(status))
  }

  lemma LowerName(s: SM.Status)
    ensures Lower(SM.Name(s)) ==
      match s
      case Planned => "planned"
      case Released => "released"
      case InProgress => "in_progress"
      case OnHold => "on_hold"
      case Finished => "finished"
      case Cancelled => "cancelled"
  {
    match s
    case Planned => LowerOf("PLANNED", "planned");
    case Released => LowerOf("RELEASED", "released");
    case InProgress => LowerOf("IN_PROGRESS", "in_progress");
    case OnHold => LowerOf("ON_HOLD", "on_hold");
    case Finished => LowerOf("FINISHED", "finished");
    case Cancelled => LowerOf("CANCELLED", "cancelled");
  }

  /** Lower-casing, checked character by character. */
  lemma LowerOf(upper: string, lower: string)
    requires |upper| == |lower|
    requires forall i | 0 <= i < |upper| :: LowerChar(upper[i]) == lower[i]
    ensures Lower(upper) == lower
  {
  }

  /** Different statuses give different transition relations. */
  lemma TransitionRelDistinct(s: SM.Status, t: SM.Status)
    ensures TransitionRel(SM.Name(s)) == TransitionRel(SM.Name(t)) ==> s == t
  {
    LowerName(s);
    LowerName(t);
    var p := "transition-to-";
    if TransitionRel(SM.Name(s)) == TransitionRel(SM.Name(t)) {
      assert TransitionRel(SM.Name(s))[|p|..] == Lower(SM.Name(s));
      assert TransitionRel(SM.Name(t))[|p|..] == Lower(SM.Name(t));
    }
  }

  /** Over status names, a transition link is present exactly when its status is listed. */
  lemma TransitionRelsOfNames(names: seq<string>, t: SM.Status)
    requires forall n | n in names :: SM.Parse(n).Some?
    ensures TransitionRel(SM.Name(t)) in TransitionRels(names) <==> SM.Name(t) in names
  {
    if TransitionRel(SM.Name(t)) in TransitionRels(names) {
      var n :| n in names && TransitionRel(SM.Name(t)) == TransitionRel(n);
      var u := SM.Parse(n).value;
      TransitionRelDistinct(t, u);
    }
  }

  /** A status has a transition link exactly for each structural target of the current status. */
  lemma TransitionRelsOfStatus(s: SM.Status, t: SM.Status)
    ensures TransitionRel(SM.Name(t)) in TransitionRels(NextStates(Some(SM.Name(s)))) <==> t in SM.Targets(s)
  {
    var names := NextStates(Some(SM.Name(s)));
    SM.ValidTransitionsAreTargets(s);
    SM.ParseName(s);
    var edges := SM.Transitions(s);
    assert names == SM.TargetNames(edges);
    forall n | n in names
      ensures SM.Parse(n).Some?
    {
      var i :| 0 <= i < |names| && names[i] == n;
      SM.ParseName(edges[i].to);
    }
    TransitionRelsOfNames(names, t);
  }

  /** The fixed relations of an operation in a known status. */
  lemma ActionRelsOfStatus(s: SM.Status)
    ensures var links := ActionRels(Some(SM.Name(s)));
            && {"self", "update", "events"} <= links
            && ("delete" in links <==> !SM.Terminal(s))
            && ("start" in links <==> s == SM.Released)
            && ("finish" in links <==> s == SM.InProgress)
            && ("pause" in links <==> s == SM.InProgress)
  {
    SM.ParseName(s);
    SM.ParseName(SM.Released);
    SM.ParseName(SM.InProgress);
  }

  /**
   * The link set of an operation in a known status: "self", "update" and
   * "events" always; "delete" unless terminal; one transition link for each
   * structural target and no other; "start" only when RELEASED; "finish" and
   * "pause" only when IN_PROGRESS.
   */
  lemma HateoasLinksMeaning(s: SM.Status)
    ensures var links := HateoasLinks(Some(SM.Name(s)));
            && {"self", "update", "events"} <= links
            && ("delete" in links <==> !SM.Terminal(s))
            && (forall t: SM.Status :: TransitionRel(SM.Name(t)) in links <==> t in SM.Targets(s))
            && ("start" in links <==> s == SM.Released)
            && ("finish" in links <==> s == SM.InProgress)
            && ("pause" in links <==> s == SM.InProgress)
  {
    ActionRelsOfStatus(s);
    forall t: SM.Status
      ensures TransitionRel(SM.Name(t)) in HateoasLinks(Some(SM.Name(s))) <==> t in SM.Targets(s)
    {
      TransitionRelsOfStatus(s, t);
      assert |TransitionRel(SM.Name(t))| >= 14;
    }
  }

  /** An operation whose status is missing or unknown still gets "self", "update", "delete" and "events", and nothing else. */
  lemma HateoasLinksUnknownStatus(status: Option<string>)
    requires status.None? || SM.Parse(status.value).None?
    ensures HateoasLinks(status) == {"self", "update", "delete", "events"}
  {
  }

  /** One entry of `operations_preview`. */
  datatype PreviewEntry = PreviewEntry(
    orderNo: string,
    assetId: int,
    operationNo: string,
    currentStatus: Option<string>,
    workplaceName: Option<string>)

  /** The dry-run answer: how many rows match, the first ten of them, and the fields the update would set. */
  datatype DryRun = DryRun(matchingOperations: nat, preview: seq<PreviewEntry>, wouldUpdate: OperationUpdate)

  function Preview(o: Operation): PreviewEntry {
    PreviewEntry(o.orderNo, o.assetId, o.operationNo, o.status, o.workplaceName)
  }

  /** `batch_update_operations` with `dry_run`: a preview of the matching rows; nothing is written. */
  function BatchDryRun(matching: seq<Operation>, u: OperationUpdate): (r: DryRun)
    ensures r.matchingOperations == |matching|
    ensures |r.preview| == if |matching| < 10 then |matching| else 10
    ensures forall i | 0 <= i < |r.preview| ::
              r.preview[i].orderNo == matching[i].orderNo && r.preview[i].assetId == matching[i].assetId
              && r.preview[i].operationNo == matching[i].operationNo
              && r.preview[i].currentStatus == matching[i].status
              && r.preview[i].workplaceName == matching[i].workplaceName
    ensures r.wouldUpdate == u
  {
    var shown := if |matching| < 10 then matching else matching[..10];
    DryRun(|matching|, seq(|shown|, i requires 0 <= i < |shown| => Preview(shown[i])), u)
  }
}
