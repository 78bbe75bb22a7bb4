/**
 * The "Distribute Profit" modal
 * (src/app/dashboard/investments/components/DistributeProfitModal.tsx):
 * a profit input, a loading flag held while `onSubmit` is awaited, and
 * the validation in front of it.
 *
 * `handleSubmit` suspends at `await onSubmit(amount)`; the model splits it
 * there: `HandleSubmit` runs up to the await, `Settle` runs the `finally`
 * once the promise settles. `parseFloat` is the parameter `parse`, with
 * `None` for NaN.
 */
module DistributeProfitModal {
  import opened Options
  import opened Cycles

  const InvalidAmount: string := "Please enter a valid profit amount"

  /** What the modal does towards the outside, in order. */
  datatype Effect = Alert(message: string) | OnSubmit(amount: real) | Rejection

  /** The amount `handleSubmit` accepts: a number greater than zero. */
  function Accepted(parsed: Option<real>): (r: Option<real>)
    ensures r.Some? <==> parsed.Some? && parsed.value > 0.0
    ensures r.Some? ==> r == parsed
  {
    if parsed.Some? && parsed.value > 0.0 then parsed else None
  }

  /** Every amount this modal passed to `onSubmit` was positive. */
  ghost predicate SubmittedPositive(effects: seq<Effect>)
  {
    forall i :: 0 <= i < |effects| && effects[i].OnSubmit? ==> effects[i].amount > 0.0
  }

  class Modal {
    const cycle: Cycle
    var profit: string
    var loading: bool
    var effects: seq<Effect>

    ghost predicate Valid()
      reads this
    {
      && SubmittedPositive(effects)
      && (loading ==> effects != [] && effects[|effects| - 1].OnSubmit?)
    }

    /** The Distribute button: disabled while loading or while the input is empty. */
    function SubmitDisabled(): (r: bool)
      reads this
      ensures r <==> loading || profit == ""
    {
      loading || profit == ""
    }

    /** The Cancel button: disabled while loading. */
    function CancelDisabled(): (r: bool)
      reads this
      ensures r <==> loading
    {
      loading
    }

    constructor (cycle: Cycle)
      ensures Valid() && this.cycle == cycle
      ensures profit == "" && !loading && effects == []
      ensures SubmitDisabled()
    {
      this.cycle := cycle;
      profit := "";
      loading := false;
      effects := [];
    }

    /** The input's `onChange`. */
    method SetProfit(value: string)
      requires Valid()
      modifies this`profit
      ensures Valid() && profit == value
    {
      profit := value;
    }

    /**
     * `handleSubmit` up to the await: an amount that does not parse or is
     * not positive raises the alert and stops; otherwise `loading` is set
     * and `onSubmit` is called once with the parsed amount. The handler is
     * the button's `onClick`, so it runs only while the button is enabled;
     * once a submit has started both buttons stay disabled until it settles.
     */
    method HandleSubmit(parse: string -> Option<real>) returns (started: bool)
      requires Valid() && !SubmitDisabled()
      modifies this`loading, this`effects
      ensures Valid()
      ensures started <==> Accepted(parse(profit)).Some?
      ensures started ==> loading && effects == old(effects) + [OnSubmit(parse(profit).value)]
      ensures started ==> SubmitDisabled() && CancelDisabled()
      ensures !started ==> !loading && effects == old(effects) + [Alert(InvalidAmount)]
      ensures !started ==> !SubmitDisabled() && !CancelDisabled()
    {
      var amount := parse(profit);
      if amount.None? || amount.value <= 0.0 {
        effects := effects + [Alert(InvalidAmount)];
        return false;
      }
      loading := true;
      effects := effects + [OnSubmit(amount.value)];
      started := true;
    }

    /**
     * The `finally` once `onSubmit` settles: `loading` is cleared whether it
     * resolved or threw; a throw propagates out of `handleSubmit`. Cancel
     * is enabled again, and so is the submit button unless the input is empty.
     */
    method Settle(threw: bool)
      requires Valid() && loading
      modifies this`loading, this`effects
      ensures Valid() && !loading
      ensures !CancelDisabled() && (SubmitDisabled() <==> profit == "")
      ensures effects == old(effects) + if threw then [Rejection] else []
    {
      loading := false;
      if threw {
        effects := effects + [Rejection];
      }
    }
  }

  /** A typed-in zero or negative amount never reaches `onSubmit`. */
  lemma NonPositiveRejected(parsed: Option<real>)
    requires parsed.Some? && parsed.value <= 0.0
    ensures Accepted(parsed) == None
  {
  }
}
