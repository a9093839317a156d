/**
 * The split-bill form: the bill total, the user's own expense, who paid, the
 * friend's share derived from the first two, and the balance delta a
 * submission emits. Amounts are integers; an empty expense field counts as 0.
 */
module SplitBill {
  import opened Wrappers

  /** The payer selector: the user ('me') or the selected friend ('friend'). */
  datatype Payer = ByMe | ByFriend

  /** The friend's expense shown read-only: what is left of the bill after the user's share, or 0 while there is no bill. */
  function PaidByFriend(bill: int, paidByMe: int): (r: int)
    ensures bill == 0 ==> r == 0
    ensures bill != 0 ==> paidByMe + r == bill
  {
    if bill != 0 then bill - paidByMe else 0
  }

  /** The expense setter: an input above the current bill is ignored, any other input is stored as is. */
  function ClampExpense(bill: int, current: int, input: int): (r: int)
    ensures input > bill ==> r == current
    ensures input <= bill ==> r == input
  {
    if input > bill then current else input
  }

  /** The setter keeps an expense that was within the bill within the bill. */
  lemma ClampExpenseWithinBill(bill: int, current: int, input: int)
    requires current <= bill
    ensures ClampExpense(bill, current, input) <= bill
  {
  }

  /** Typing the same value twice has the effect of typing it once. */
  lemma ClampExpenseIdempotent(bill: int, current: int, input: int)
    ensures ClampExpense(bill, ClampExpense(bill, current, input), input) == ClampExpense(bill, current, input)
  {
  }

  /**
   * Only the expense setter compares with the bill: an expense accepted against
   * one bill stays when the bill is lowered below it, and the friend's share then
   * turns negative.
   */
  lemma LoweringBillLeavesExpenseAbove(bill: int, current: int, input: int, newBill: int)
    requires input <= bill && newBill < input && newBill != 0
    ensures ClampExpense(bill, current, input) > newBill
    ensures PaidByFriend(newBill, ClampExpense(bill, current, input)) < 0
  {
  }

  /**
   * What a submission emits: nothing while the bill or the expense is zero;
   * otherwise the friend's share when the user paid, and minus the user's share
   * when the friend paid.
   */
  function SplitDelta(bill: int, paidByMe: int, who: Payer): (r: Option<int>)
    ensures r.None? <==> bill == 0 || paidByMe == 0
    ensures r.Some? && who == ByMe ==> r.value == PaidByFriend(bill, paidByMe) == bill - paidByMe
    ensures r.Some? && who == ByFriend ==> r.value == -paidByMe
  {
    if bill == 0 || paidByMe == 0 then None
    else Some(if who == ByMe then PaidByFriend(bill, paidByMe) else -paidByMe)
  }

  /**
   * Signs of the delta when the expense is a positive part of the bill: the friend
   * ends up owing more when the user paid and less when the friend paid; switching
   * the payer moves the delta by exactly the bill.
   */
  lemma SplitDeltaSigns(bill: int, paidByMe: int)
    requires 0 < paidByMe <= bill
    ensures SplitDelta(bill, paidByMe, ByMe).Some? && SplitDelta(bill, paidByMe, ByMe).value >= 0
    ensures SplitDelta(bill, paidByMe, ByFriend).Some? && SplitDelta(bill, paidByMe, ByFriend).value < 0
    ensures SplitDelta(bill, paidByMe, ByMe).value - SplitDelta(bill, paidByMe, ByFriend).value == bill
  {
  }

  /** The form's local state: the `bill`, `paidByMe` and `whoIsPaying` fields. */
  class SplitBillForm {
    var bill: int
    var paidByMe: int
    var whoIsPaying: Payer

    /** The state the form is mounted with (the empty expense field counts as 0). */
    predicate IsFresh()
      reads this
    {
      bill == 0 && paidByMe == 0 && whoIsPaying == ByMe
    }

    constructor ()
      ensures IsFresh()
    {
      bill, paidByMe, whoIsPaying := 0, 0, ByMe;
    }

    /** Puts the fields back to their mount-time values. */
    method Reset()
      modifies this
      ensures IsFresh()
    {
      bill, paidByMe, whoIsPaying := 0, 0, ByMe;
    }

    /** Typing into the bill field: stored without a check against the expense. */
    method SetBill(v: int)
      modifies this
      ensures bill == v && paidByMe == old(paidByMe) && whoIsPaying == old(whoIsPaying)
    {
      bill := v;
    }

    /** Typing into the expense field: a value above the current bill leaves the field as it was. */
    method SetExpense(v: int)
      modifies this
      ensures paidByMe == ClampExpense(old(bill), old(paidByMe), v)
      ensures bill == old(bill) && whoIsPaying == old(whoIsPaying)
    {
      if v <= bill {
        paidByMe := v;
      }
    }

    /** Choosing the payer. */
    method SetWhoIsPaying(p: Payer)
      modifies this
      ensures whoIsPaying == p && bill == old(bill) && paidByMe == old(paidByMe)
    {
      whoIsPaying := p;
    }

    /** Submitting the form: the delta it emits, if any; the fields are not changed. */
    method Submit() returns (r: Option<int>)
      ensures r == SplitDelta(bill, paidByMe, whoIsPaying)
    {
      if bill == 0 || paidByMe == 0 {
        return None;
      }
      var paidByFriend := PaidByFriend(bill, paidByMe);
      r := Some(if whoIsPaying == ByMe then paidByFriend else -paidByMe);
    }
  }
}
