/**
 * What the investment-cycle table shows for a list of cycles: a loading
 * message, an empty-list message, or one row per cycle with its status
 * badges and the action buttons it offers
 * (src/app/dashboard/investments/components/CycleTable.tsx).
 */
module CycleTable {
  import opened Options
  import opened Cycles

  datatype Badge = InvestedBadge | PendingBadge | DistributedBadge

  datatype Action = Edit | Delete | MarkInvested | Distribute | AssignPaid

  datatype Row = Row(
    id: string,
    name: string,
    deposit: real,
    profit: real,
    badges: seq<Badge>,
    startDate: string,
    endDate: Option<string>,
    actions: seq<Action>)

  datatype View = LoadingView | EmptyView | TableView(rows: seq<Row>)

  /** `cycle.name || "Unnamed"`. */
  function DisplayName(c: Cycle): (r: string)
    ensures Truthy(c.name) ==> r == c.name.value
    ensures !Truthy(c.name) ==> r == "Unnamed"
    ensures r != ""
  {
    if Truthy(c.name) then c.name.value else "Unnamed"
  }

  /** The status badges: "Invested" or else "Pending", then "Distributed" when distributed. */
  function Badges(c: Cycle): (r: seq<Badge>)
    ensures |r| == if c.distributed then 2 else 1
    ensures r[0] == if c.isInvested then InvestedBadge else PendingBadge
    ensures InvestedBadge in r <==> c.isInvested
    ensures PendingBadge in r <==> !c.isInvested
    ensures DistributedBadge in r <==> c.distributed
  {
    [if c.isInvested then InvestedBadge else PendingBadge] +
    (if c.distributed then [DistributedBadge] else [])
  }

  /** The action buttons of a row, in the order they are laid out. */
  function Actions(c: Cycle): (r: seq<Action>)
    ensures Edit in r && Delete in r && AssignPaid in r
    ensures MarkInvested in r <==> !c.isInvested
    ensures Distribute in r <==> c.isInvested && !c.distributed
    ensures r[0] == Edit && r[1] == Delete && r[|r| - 1] == AssignPaid
    ensures |r| == if c.isInvested && c.distributed then 3 else 4
  {
    [Edit, Delete] +
    (if !c.isInvested then [MarkInvested] else []) +
    (if c.isInvested && !c.distributed then [Distribute] else []) +
    [AssignPaid]
  }

  /** A row shows the " to ..." end date only when `endDate` is truthy; an empty one is not shown. */
  function RenderRow(c: Cycle): (r: Row)
    ensures r.id == c.id && r.name == DisplayName(c)
    ensures r.deposit == c.totalDeposit && r.profit == c.totalProfit
    ensures r.badges == Badges(c) && r.actions == Actions(c)
    ensures r.startDate == c.startDate
    ensures r.endDate.Some? <==> Truthy(c.endDate)
    ensures r.endDate.Some? ==> r.endDate == c.endDate
  {
    var shownEnd := if Truthy(c.endDate) then c.endDate else None;
    Row(c.id, DisplayName(c), c.totalDeposit, c.totalProfit, Badges(c), c.startDate, shownEnd, Actions(c))
  }

  /** The table: loading wins over the empty message; otherwise one row per cycle. */
  function Render(cycles: seq<Cycle>, loading: bool): (v: View)
    ensures loading ==> v == LoadingView
    ensures !loading && cycles == [] ==> v == EmptyView
    ensures !loading && cycles != [] ==>
      && v.TableView?
      && |v.rows| == |cycles|
      && forall i :: 0 <= i < |cycles| ==> v.rows[i] == RenderRow(cycles[i])
  {
    if loading then LoadingView
    else if |cycles| == 0 then EmptyView
    else TableView(seq(|cycles|, i requires 0 <= i < |cycles| => RenderRow(cycles[i])))
  }

  /**
   * The cycle's place in the Pending / Invested / Distributed life cycle,
   * read from its two flags the way the table reads them.
   */
  datatype Phase = Pending | Invested | Distributed

  function PhaseOf(c: Cycle): Phase
  {
    if !c.isInvested then Pending
    else if !c.distributed then Invested
    else Distributed
  }

  /**
   * The forward transitions offered follow the phase: "Mark Invested" only
   * when pending, "Distribute" only when invested, neither once
   * distributed; so at most one of the two is ever offered.
   */
  lemma ActionsFollowPhase(c: Cycle)
    ensures MarkInvested in Actions(c) <==> PhaseOf(c) == Pending
    ensures Distribute in Actions(c) <==> PhaseOf(c) == Invested
    ensures PhaseOf(c) == Distributed ==> MarkInvested !in Actions(c) && Distribute !in Actions(c)
    ensures !(MarkInvested in Actions(c) && Distribute in Actions(c))
  {
  }

  /**
   * The flags the client does not keep consistent: a cycle that is
   * distributed but not invested shows both "Pending" and
   * "Distributed", and is offered "Mark Invested".
   */
  lemma DistributedButPending(c: Cycle)
    requires c.distributed && !c.isInvested
    ensures Badges(c) == [PendingBadge, DistributedBadge]
    ensures MarkInvested in Actions(c) && PhaseOf(c) == Pending
  {
  }

  /** Rows are distinguished by the cycles they show: equal rows come from cycles agreeing on what is shown. */
  lemma RowShowsFlags(a: Cycle, b: Cycle)
    requires RenderRow(a) == RenderRow(b)
    ensures a.isInvested == b.isInvested && a.distributed == b.distributed && a.id == b.id
  {
    assert Badges(a)[0] == Badges(b)[0];
    assert |Badges(a)| == |Badges(b)|;
  }
}
