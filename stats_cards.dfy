/**
 * The four summary cards above the cycle table: number of cycles, number
 * invested, number distributed and the sum of the deposits
 * (src/app/dashboard/investments/components/StatsCards.tsx).
 */
module StatsCards {
  import opened Seqs
  import opened Cycles

  datatype Stats = Stats(total: nat, invested: nat, distributed: nat, deposit: real)

  function IsInvested(c: Cycle): bool { c.isInvested }
  function IsDistributed(c: Cycle): bool { c.distributed }

  /** `cycles.reduce((sum, c) => sum + c.totalDeposit, acc)`: a left fold. */
  function FoldDeposit(acc: real, cycles: seq<Cycle>): real
    decreases |cycles|
  {
    if cycles == [] then acc else FoldDeposit(acc + cycles[0].totalDeposit, cycles[1..])
  }

  /** The sum of the deposits, defined element by element from the right. */
  function DepositSum(cycles: seq<Cycle>): real
  {
    if cycles == [] then 0.0 else cycles[0].totalDeposit + DepositSum(cycles[1..])
  }

  /** Folding from `acc` adds the sum to `acc`. */
  lemma {:induction false} FoldIsSum(acc: real, cycles: seq<Cycle>)
    ensures FoldDeposit(acc, cycles) == acc + DepositSum(cycles)
    decreases |cycles|
  {
    if cycles != [] {
      FoldIsSum(acc + cycles[0].totalDeposit, cycles[1..]);
    }
  }

  /** The sum over two lists one after the other is the sum of the two sums. */
  lemma {:induction false} DepositSumAppend(xs: seq<Cycle>, ys: seq<Cycle>)
    ensures DepositSum(xs + ys) == DepositSum(xs) + DepositSum(ys)
  {
    if xs == [] {
      assert xs + ys == ys;
    } else {
      assert (xs + ys)[1..] == xs[1..] + ys;
      DepositSumAppend(xs[1..], ys);
    }
  }

  /** When no deposit is negative, the total is at least every single deposit. */
  lemma {:induction false} DepositSumBounds(cycles: seq<Cycle>)
    requires forall i :: 0 <= i < |cycles| ==> cycles[i].totalDeposit >= 0.0
    ensures DepositSum(cycles) >= 0.0
    ensures forall i :: 0 <= i < |cycles| ==> cycles[i].totalDeposit <= DepositSum(cycles)
  {
    if cycles != [] {
      DepositSumBounds(cycles[1..]);
      assert forall i :: 1 <= i < |cycles| ==> cycles[i] == cycles[1..][i - 1];
    }
  }

  /** The figures on the four cards. */
  function StatsOf(cycles: seq<Cycle>): (s: Stats)
    ensures s.total == |cycles|
    ensures s.invested <= s.total && s.distributed <= s.total
    ensures s.invested == |Filter(cycles, IsInvested)|
    ensures s.distributed == |Filter(cycles, IsDistributed)|
    ensures s.deposit == DepositSum(cycles)
    ensures cycles == [] ==> s == Stats(0, 0, 0, 0.0)
  {
    FoldIsSum(0.0, cycles);
    Stats(|cycles|, |Filter(cycles, IsInvested)|, |Filter(cycles, IsDistributed)|, FoldDeposit(0.0, cycles))
  }

  /** The cards of two lists shown together add up. */
  lemma StatsAppend(xs: seq<Cycle>, ys: seq<Cycle>)
    ensures StatsOf(xs + ys).total == StatsOf(xs).total + StatsOf(ys).total
    ensures StatsOf(xs + ys).invested == StatsOf(xs).invested + StatsOf(ys).invested
    ensures StatsOf(xs + ys).distributed == StatsOf(xs).distributed + StatsOf(ys).distributed
    ensures StatsOf(xs + ys).deposit == StatsOf(xs).deposit + StatsOf(ys).deposit
  {
    FilterAppend(xs, ys, IsInvested);
    FilterAppend(xs, ys, IsDistributed);
    DepositSumAppend(xs, ys);
  }

  /** The invested card counts exactly the cycles whose badge is "Invested". */
  lemma InvestedCountMembers(cycles: seq<Cycle>, c: Cycle)
    ensures c in Filter(cycles, IsInvested) <==> c in cycles && c.isInvested
  {
  }
}
