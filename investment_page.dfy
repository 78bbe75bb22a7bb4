/**
 * The investment-cycles page controller
 * (src/app/dashboard/investments/page.tsx): a cached list of cycles, a
 * loading flag, the selected cycle, three modal flags, and handlers that
 * call the investment-cycle endpoints and reload the list after every
 * successful write.
 *
 * A gateway call is recorded in `calls`; what the server answers is a
 * parameter of the handler (`ok` for a write, `list` for the reload that
 * follows it). Handlers run to completion one at a time.
 */
module InvestmentPage {
  import opened Options
  import opened Cycles
  import CycleTable

  /** One request of `investmentService`, by endpoint. */
  datatype Op =
    | ListCycles
    | CreateCycle(payload: CreatePayload)
    | UpdateCycle(id: string, update: UpdatePayload)
    | DeleteCycle(id: string)
    | MarkAsInvested(id: string)
    | DistributeProfit(id: string, distribute: DistributePayload)
    | AssignPaidPayments(id: string)

  /** A request with the bearer token `setAuthToken` attached. */
  datatype Call = Call(token: string, op: Op)

  /** The answer to `getAllCycles`: the body's `data` field, which may be absent, or a failure. */
  datatype ListReply = Listed(data: Option<seq<Cycle>>) | ListFailed

  /** The cache after a reload answered by `reply`: replaced on success (absent data reads as []), kept on failure. */
  function Reloaded(cached: seq<Cycle>, reply: ListReply): (r: seq<Cycle>)
    ensures reply.ListFailed? ==> r == cached
    ensures reply.Listed? && reply.data.Some? ==> r == reply.data.value
    ensures reply.Listed? && reply.data.None? ==> r == []
  {
    match reply
    case Listed(data) => data.GetOr([])
    case ListFailed => cached
  }

  /** The calls a write makes: the write itself, then one reload when it succeeded. */
  function WriteCalls(token: string, op: Op, ok: bool): (r: seq<Call>)
    ensures |r| == if ok then 2 else 1
    ensures r[0] == Call(token, op)
    ensures ok ==> r[1] == Call(token, ListCycles)
  {
    [Call(token, op)] + if ok then [Call(token, ListCycles)] else []
  }

  /** How many reloads a sequence of calls contains. */
  function Reloads(calls: seq<Call>): nat
  {
    if calls == [] then 0
    else (if calls[0].op == ListCycles then 1 else 0) + Reloads(calls[1..])
  }

  lemma {:induction false} ReloadsAppend(a: seq<Call>, b: seq<Call>)
    ensures Reloads(a + b) == Reloads(a) + Reloads(b)
  {
    if a == [] {
      assert a + b == b;
    } else {
      assert (a + b)[1..] == a[1..] + b;
      ReloadsAppend(a[1..], b);
    }
  }

  /** A write that is not itself a reload triggers exactly one reload on success and none on failure. */
  lemma WriteReloadsOnce(token: string, op: Op, ok: bool)
    requires op != ListCycles
    ensures Reloads(WriteCalls(token, op, ok)) == if ok then 1 else 0
  {
    var r := WriteCalls(token, op, ok);
    if ok {
      assert r == [r[0]] + [r[1]];
      ReloadsAppend([r[0]], [r[1]]);
      assert [r[0]][1..] == [] && [r[1]][1..] == [];
    } else {
      assert r[1..] == [];
    }
  }

  class Page {
    const token: string
    var cycles: seq<Cycle>
    var loading: bool
    var selectedCycle: Option<Cycle>
    var showCreate: bool
    var showUpdate: bool
    var showDistribute: bool
    var calls: seq<Call>

    /**
     * The update and distribute modals are only ever open over a selected
     * cycle, and every request went out with the page's (non-empty) token.
     */
    ghost predicate Valid()
      reads this
    {
      && (showUpdate || showDistribute ==> selectedCycle.Some?)
      && (calls != [] ==> token != "")
      && forall i :: 0 <= i < |calls| ==> calls[i].token == token
    }

    /** What the table under the cards shows. */
    function Table(): (v: CycleTable.View)
      reads this
      ensures loading ==> v == CycleTable.LoadingView
    {
      CycleTable.Render(cycles, loading)
    }

    /** The first render: nothing cached, loading, nothing selected, no modal open. */
    constructor (token: string)
      ensures Valid() && this.token == token
      ensures cycles == [] && loading && selectedCycle == None
      ensures !showCreate && !showUpdate && !showDistribute && calls == []
      ensures Table() == CycleTable.LoadingView
    {
      this.token := token;
      cycles := [];
      loading := true;
      selectedCycle := None;
      showCreate, showUpdate, showDistribute := false, false, false;
      calls := [];
    }

    /** `loadCycles`: nothing without a token; otherwise one list call, then `loading` is false. */
    method LoadCycles(list: ListReply)
      requires Valid()
      modifies this
      ensures Valid()
      ensures token == "" ==> unchanged(this)
      ensures token != "" ==>
        && calls == old(calls) + [Call(token, ListCycles)]
        && cycles == Reloaded(old(cycles), list)
        && !loading
      ensures selectedCycle == old(selectedCycle)
      ensures showCreate == old(showCreate) && showUpdate == old(showUpdate)
      ensures showDistribute == old(showDistribute)
    {
      if token == "" {
        return;
      }
      loading := true;
      calls := calls + [Call(token, ListCycles)];
      match list {
        case Listed(data) => cycles := data.GetOr([]);
        case ListFailed =>
      }
      loading := false;
    }

    /** The effect on mount: `if (token) loadCycles()`. */
    method Mount(list: ListReply)
      requires Valid()
      modifies this
      ensures Valid()
      ensures token == "" ==> unchanged(this) && Table() == old(Table())
      ensures token != "" ==>
        && calls == old(calls) + [Call(token, ListCycles)]
        && cycles == Reloaded(old(cycles), list)
        && !loading
      ensures selectedCycle == old(selectedCycle)
      ensures showCreate == old(showCreate) && showUpdate == old(showUpdate)
      ensures showDistribute == old(showDistribute)
    {
      if token != "" {
        LoadCycles(list);
      }
    }

    /**
     * The write `op`, then a reload when it succeeded. A failure is caught
     * and logged: the cache and the flags stay as they were.
     */
    method Write(op: Op, ok: bool, list: ListReply)
      requires Valid() && token != ""
      modifies this
      ensures Valid()
      ensures calls == old(calls) + WriteCalls(token, op, ok)
      ensures ok ==> cycles == Reloaded(old(cycles), list) && !loading
      ensures !ok ==> cycles == old(cycles) && loading == old(loading)
      ensures selectedCycle == old(selectedCycle)
      ensures showCreate == old(showCreate) && showUpdate == old(showUpdate)
      ensures showDistribute == old(showDistribute)
    {
      calls := calls + [Call(token, op)];
      if ok {
        LoadCycles(list);
      }
    }

    /** `handleCreate`: on success the create modal closes and the list reloads. */
    method HandleCreate(payload: CreatePayload, ok: bool, list: ListReply)
      requires Valid()
      modifies this
      ensures Valid()
      ensures token == "" ==> unchanged(this)
      ensures token != "" ==>
        && calls == old(calls) + WriteCalls(token, CreateCycle(payload), ok)
        && (ok ==> !showCreate && cycles == Reloaded(old(cycles), list) && !loading)
        && (!ok ==> showCreate == old(showCreate) && cycles == old(cycles) && loading == old(loading))
      ensures selectedCycle == old(selectedCycle)
      ensures showUpdate == old(showUpdate) && showDistribute == old(showDistribute)
    {
      if token == "" {
        return;
      }
      calls := calls + [Call(token, CreateCycle(payload))];
      if ok {
        showCreate := false;
        LoadCycles(list);
      }
    }

    /** `handleUpdate`: on success the update modal closes and the list reloads. */
    method HandleUpdate(id: string, payload: UpdatePayload, ok: bool, list: ListReply)
      requires Valid()
      modifies this
      ensures Valid()
      ensures token == "" ==> unchanged(this)
      ensures token != "" ==>
        && calls == old(calls) + WriteCalls(token, UpdateCycle(id, payload), ok)
        && (ok ==> !showUpdate && cycles == Reloaded(old(cycles), list) && !loading)
        && (!ok ==> showUpdate == old(showUpdate) && cycles == old(cycles) && loading == old(loading))
      ensures selectedCycle == old(selectedCycle)
      ensures showCreate == old(showCreate) && showDistribute == old(showDistribute)
    {
      if token == "" {
        return;
      }
      calls := calls + [Call(token, UpdateCycle(id, payload))];
      if ok {
        showUpdate := false;
        LoadCycles(list);
      }
    }

    /** `handleDelete`. */
    method HandleDelete(id: string, ok: bool, list: ListReply)
      requires Valid()
      modifies this
      ensures Valid()
      ensures token == "" ==> unchanged(this)
      ensures token != "" ==>
        && calls == old(calls) + WriteCalls(token, DeleteCycle(id), ok)
        && (ok ==> cycles == Reloaded(old(cycles), list) && !loading)
        && (!ok ==> cycles == old(cycles) && loading == old(loading))
      ensures selectedCycle == old(selectedCycle)
      ensures showCreate == old(showCreate) && showUpdate == old(showUpdate)
      ensures showDistribute == old(showDistribute)
    {
      if token == "" {
        return;
      }
      Write(DeleteCycle(id), ok, list);
    }

    /** `markAsInvested`. */
    method MarkAsInvested(id: string, ok: bool, list: ListReply)
      requires Valid()
      modifies this
      ensures Valid()
      ensures token == "" ==> unchanged(this)
      ensures token != "" ==>
        && calls == old(calls) + WriteCalls(token, Op.MarkAsInvested(id), ok)
        && (ok ==> cycles == Reloaded(old(cycles), list) && !loading)
        && (!ok ==> cycles == old(cycles) && loading == old(loading))
      ensures selectedCycle == old(selectedCycle)
      ensures showCreate == old(showCreate) && showUpdate == old(showUpdate)
      ensures showDistribute == old(showDistribute)
    {
      if token == "" {
        return;
      }
      Write(Op.MarkAsInvested(id), ok, list);
    }

    /** `distributeProfit`: sends `{totalProfit: profit}` for cycle `id`. */
    method DistributeProfit(id: string, profit: real, ok: bool, list: ListReply)
      requires Valid()
      modifies this
      ensures Valid()
      ensures token == "" ==> unchanged(this)
      ensures token != "" ==>
        && calls == old(calls) + WriteCalls(token, Op.DistributeProfit(id, DistributePayload(profit)), ok)
        && (ok ==> cycles == Reloaded(old(cycles), list) && !loading)
        && (!ok ==> cycles == old(cycles) && loading == old(loading))
      ensures selectedCycle == old(selectedCycle)
      ensures showCreate == old(showCreate) && showUpdate == old(showUpdate)
      ensures showDistribute == old(showDistribute)
    {
      if token == "" {
        return;
      }
      Write(Op.DistributeProfit(id, DistributePayload(profit)), ok, list);
    }

    /** `assignPaidPayments`. */
    method AssignPaidPayments(id: string, ok: bool, list: ListReply)
      requires Valid()
      modifies this
      ensures Valid()
      ensures token == "" ==> unchanged(this)
      ensures token != "" ==>
        && calls == old(calls) + WriteCalls(token, Op.AssignPaidPayments(id), ok)
        && (ok ==> cycles == Reloaded(old(cycles), list) && !loading)
        && (!ok ==> cycles == old(cycles) && loading == old(loading))
      ensures selectedCycle == old(selectedCycle)
      ensures showCreate == old(showCreate) && showUpdate == old(showUpdate)
      ensures showDistribute == old(showDistribute)
    {
      if token == "" {
        return;
      }
      Write(Op.AssignPaidPayments(id), ok, list);
    }

    /** "Create New Cycle". */
    method OpenCreate()
      requires Valid()
      modifies this`showCreate
      ensures Valid() && showCreate
    {
      showCreate := true;
    }

    /** The create modal's Cancel. */
    method CloseCreate()
      requires Valid()
      modifies this`showCreate
      ensures Valid() && !showCreate
    {
      showCreate := false;
    }

    /** A row's Edit button: select the cycle and open the update modal. */
    method OpenEdit(c: Cycle)
      requires Valid()
      modifies this`selectedCycle, this`showUpdate
      ensures Valid() && selectedCycle == Some(c) && showUpdate
    {
      selectedCycle := Some(c);
      showUpdate := true;
    }

    /** The update modal's Cancel. */
    method CloseUpdate()
      requires Valid()
      modifies this`showUpdate
      ensures Valid() && !showUpdate
    {
      showUpdate := false;
    }

    /** A row's Distribute button: select the cycle and open the distribute modal. */
    method OpenDistribute(c: Cycle)
      requires Valid()
      modifies this`selectedCycle, this`showDistribute
      ensures Valid() && selectedCycle == Some(c) && showDistribute
    {
      selectedCycle := Some(c);
      showDistribute := true;
    }

    /** The distribute modal's Cancel. */
    method CloseDistribute()
      requires Valid()
      modifies this`showDistribute
      ensures Valid() && !showDistribute
    {
      showDistribute := false;
    }

    /** The update modal's `onSubmit`, for the selected cycle (the modal is shown only then). */
    method SubmitUpdate(payload: UpdatePayload, ok: bool, list: ListReply)
      requires Valid() && showUpdate && selectedCycle.Some?
      modifies this
      ensures Valid()
      ensures token == "" ==> unchanged(this)
      ensures token != "" ==>
        && calls == old(calls) + WriteCalls(token, UpdateCycle(old(selectedCycle).value.id, payload), ok)
        && showUpdate == !ok
      ensures selectedCycle == old(selectedCycle)
    {
      HandleUpdate(selectedCycle.value.id, payload, ok, list);
    }

    /**
     * The distribute modal's `onSubmit`: distribute for the selected cycle,
     * then close the modal. `distributeProfit` catches its own errors, so
     * the modal closes whether or not the call succeeded, and also when
     * there is no token.
     */
    method SubmitDistribute(profit: real, ok: bool, list: ListReply)
      requires Valid() && showDistribute && selectedCycle.Some?
      modifies this
      ensures Valid()
      ensures !showDistribute
      ensures token == "" ==> calls == old(calls) && cycles == old(cycles) && loading == old(loading)
      ensures token != "" ==>
        && calls == old(calls) +
             WriteCalls(token, Op.DistributeProfit(old(selectedCycle).value.id, DistributePayload(profit)), ok)
        && (ok ==> cycles == Reloaded(old(cycles), list))
        && (!ok ==> cycles == old(cycles))
      ensures selectedCycle == old(selectedCycle)
      ensures showCreate == old(showCreate) && showUpdate == old(showUpdate)
    {
      DistributeProfit(selectedCycle.value.id, profit, ok, list);
      showDistribute := false;
    }
  }
}
