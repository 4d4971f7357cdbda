/** The durable order-intent states of app/order_state.py. */
module OrderStates {

  datatype State =
    | Created | Reserved | RetryablePreSubmission | Submitting | Submitted | PartiallyFilled | Filled
    | CancelPending | Cancelled | Rejected | Expired | Unknown | ReconciliationRequired

  function Allowed(s: State): set<State> {
    match s
    case Created => {Reserved, RetryablePreSubmission, Rejected, Expired}
    case Reserved => {RetryablePreSubmission, Submitting, Rejected, Expired}
    case RetryablePreSubmission => {Submitting, Rejected, Expired}
    case Submitting => {RetryablePreSubmission, Submitted, PartiallyFilled, Filled, Rejected, Unknown, ReconciliationRequired}
    case Submitted => {PartiallyFilled, Filled, CancelPending, Cancelled, Rejected, Expired, Unknown, ReconciliationRequired}
    case PartiallyFilled => {Filled, CancelPending, Cancelled, Expired, Unknown, ReconciliationRequired}
    case CancelPending => {Cancelled, PartiallyFilled, Filled, Unknown, ReconciliationRequired}
    case Unknown => {ReconciliationRequired, Submitted, PartiallyFilled, Filled, Cancelled, Rejected, Expired}
    case ReconciliationRequired => {Unknown, Submitted, PartiallyFilled, Filled, Cancelled, Rejected, Expired}
    case Filled => {}
    case Cancelled => {}
    case Rejected => {}
    case Expired => {}
  }

  /** The states from which recovery may start a submission. */
  predicate IsReady(s: State) {
    s in {Created, Reserved, RetryablePreSubmission}
  }

  /** What reconciliation may record: an order's fate at the broker, never a way back. */
  predicate IsBrokerOutcome(s: State) {
    s !in {Created, Reserved, RetryablePreSubmission, Submitting}
  }

  predicate BeforeTheBroker(s: State) {
    IsReady(s) || s == Submitting
  }

  /** The broker may still fill the order, or already does. */
  predicate IsOpen(s: State) {
    s in {Submitting, Submitted, PartiallyFilled, CancelPending, Unknown, ReconciliationRequired}
  }

  predicate IsUncertain(s: State) {
    s in {Unknown, ReconciliationRequired}
  }

  /** The table by rule: preparation only moves on, only a submission leads to the broker, an open order may at any time turn
      out filled, uncertain or cancelled, nothing leads back before the broker, and a closed order stays closed. */
  lemma AllowedByRule(s: State, t: State)
    ensures t in Allowed(s) <==>
      && s != t
      && match t
         case Created => false
         case Reserved => s == Created
         case RetryablePreSubmission => s in {Created, Reserved, Submitting}
         case Submitting => s in {Reserved, RetryablePreSubmission}
         case Submitted => s == Submitting || IsUncertain(s)
         case PartiallyFilled => IsOpen(s)
         case Filled => IsOpen(s)
         case CancelPending => s in {Submitted, PartiallyFilled}
         case Cancelled => IsOpen(s) && s != Submitting
         case Rejected => BeforeTheBroker(s) || s == Submitted || IsUncertain(s)
         case Expired => IsReady(s) || s in {Submitted, PartiallyFilled} || IsUncertain(s)
         case Unknown => IsOpen(s)
         case ReconciliationRequired => IsOpen(s)
  {
  }

  /** So nothing leads back before the broker, but from a submission that was not sent, and the closed states are the dead ends. */
  lemma NoWayBack(s: State, t: State)
    requires t in Allowed(s)
    ensures !BeforeTheBroker(s) ==> !BeforeTheBroker(t)
    ensures BeforeTheBroker(s) && !BeforeTheBroker(t) ==> s == Submitting || t in {Rejected, Expired}
    ensures Allowed(t) == {} <==> !BeforeTheBroker(t) && !IsOpen(t)
  {
    AllowedByRule(s, t);
    assert IsOpen(t) <==> Filled in Allowed(t);
    assert IsReady(t) ==> Rejected in Allowed(t);
  }
}
