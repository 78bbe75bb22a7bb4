/**
 * The "Send Payment" modal (src/app/dashboard/users/components/PaymentModal.tsx):
 * an amount input, a validity check, a re-entry guard and an `isPaying`
 * flag held while the payment request is awaited.
 *
 * `handlePaymentSubmit` suspends at the awaited request; the model splits
 * it there: `HandlePaymentSubmit` runs up to the request and
 * `FinishPayment` runs the rest once it settles. `Number(amount)` is the
 * parameter `toNumber`, with `None` for NaN. The two callbacks the modal
 * receives are recorded as effects.
 */
module PaymentModal {
  import opened Options
  import UsersTable

  const InvalidAmount: string := "Please enter a valid amount"
  const PaidMessage: string := "✅ Payment successful!"
  const FailedMessage: string := "❌ Failed to process payment."

  /** The body of the payment request; an amount of `None` is NaN. */
  datatype PaymentRequest = PaymentRequest(userId: string, amount: Option<real>)

  datatype Effect =
    | Notify(toast: Toast)
    | Pay(token: string, request: PaymentRequest)
    | PaymentSucceeded
    | Closed

  /** How a press of Confirm ends before any await. */
  datatype Outcome = Invalid | Busy | Started

  /**
   * The validity check: an empty input, or one whose number is zero or
   * below, is refused. NaN compares false with `<= 0`, so it is not.
   */
  predicate RefusedAmount(amount: string, toNumber: string -> Option<real>)
  {
    amount == "" || (toNumber(amount).Some? && toNumber(amount).value <= 0.0)
  }

  /** No payment request ever carried a number of zero or below. */
  ghost predicate NoNonPositivePayment(effects: seq<Effect>)
  {
    forall i :: 0 <= i < |effects| && effects[i].Pay? ==>
      effects[i].request.amount.None? || effects[i].request.amount.value > 0.0
  }

  class Modal {
    const user: UsersTable.IUser
    const token: string
    var amount: string
    var isPaying: bool
    var effects: seq<Effect>

    ghost predicate Valid()
      reads this
    {
      && NoNonPositivePayment(effects)
      && (isPaying ==> exists i :: 0 <= i < |effects| && effects[i].Pay?)
    }

    constructor (user: UsersTable.IUser, token: string)
      ensures Valid() && this.user == user && this.token == token
      ensures amount == "" && !isPaying && effects == []
    {
      this.user := user;
      this.token := token;
      amount := "";
      isPaying := false;
      effects := [];
    }

    /** The input's `onChange`. */
    method SetAmount(value: string)
      requires Valid()
      modifies this`amount
      ensures Valid() && amount == value
    {
      amount := value;
    }

    /**
     * `handlePaymentSubmit` up to the request: a refused amount shows the
     * error toast; a press while paying returns at once; otherwise
     * `isPaying` is set and one request goes out for this user.
     */
    method HandlePaymentSubmit(toNumber: string -> Option<real>) returns (outcome: Outcome)
      requires Valid()
      modifies this`isPaying, this`effects
      ensures Valid()
      ensures outcome == Invalid <==> RefusedAmount(amount, toNumber)
      ensures outcome == Busy <==> !RefusedAmount(amount, toNumber) && old(isPaying)
      ensures outcome == Invalid ==>
        isPaying == old(isPaying) && effects == old(effects) + [Notify(ToastError(InvalidAmount))]
      ensures outcome == Busy ==> isPaying && effects == old(effects)
      ensures outcome == Started ==>
        && isPaying
        && effects == old(effects) + [Pay(token, PaymentRequest(user.id, toNumber(amount)))]
    {
      if amount == "" || (toNumber(amount).Some? && toNumber(amount).value <= 0.0) {
        ghost var before := effects;
        effects := effects + [Notify(ToastError(InvalidAmount))];
        if isPaying {
          ghost var i :| 0 <= i < |before| && before[i].Pay?;
          assert effects[i] == before[i];
        }
        return Invalid;
      }
      if isPaying {
        return Busy;
      }
      isPaying := true;
      effects := effects + [Pay(token, PaymentRequest(user.id, toNumber(amount)))];
      assert effects[|effects| - 1].Pay?;
      outcome := Started;
    }

    /**
     * The rest once the request settles: on success the toast, the amount
     * cleared, then `onPaymentSuccess`, then `onClose`; on failure the
     * error toast and the amount kept. `isPaying` is cleared either way.
     */
    method FinishPayment(ok: bool)
      requires Valid() && isPaying
      modifies this`amount, this`isPaying, this`effects
      ensures Valid() && !isPaying
      ensures ok ==>
        && amount == ""
        && effects == old(effects) + [Notify(ToastSuccess(PaidMessage)), PaymentSucceeded, Closed]
      ensures !ok ==>
        && amount == old(amount)
        && effects == old(effects) + [Notify(ToastError(FailedMessage))]
    {
      if ok {
        effects := effects + [Notify(ToastSuccess(PaidMessage))];
        amount := "";
        effects := effects + [PaymentSucceeded, Closed];
      } else {
        effects := effects + [Notify(ToastError(FailedMessage))];
      }
      isPaying := false;
    }

    /** The Cancel button: `!isPaying && onClose()`. */
    method Cancel()
      requires Valid()
      modifies this`effects
      ensures Valid()
      ensures effects == old(effects) + if isPaying then [] else [Closed]
    {
      if !isPaying {
        effects := effects + [Closed];
      }
    }
  }

  /** An input that does not read as a number passes the check and is sent as NaN. */
  lemma NaNPassesCheck(toNumber: string -> Option<real>)
    requires toNumber("abc") == None
    ensures !RefusedAmount("abc", toNumber)
  {
  }
}
