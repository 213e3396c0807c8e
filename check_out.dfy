/** src/pages/CheckOut.tsx: the bill shown at check-out, the late-checkout
    recalculation and the payment-method choice. Amounts are exact reals;
    rounding for display is not modelled. */
module CheckOut {
  import opened Common

  datatype BillItem = BillItem(id: string, description: string, date: string, amount: real)

  datatype CheckoutData = CheckoutData(
    guestName: string,
    roomNumber: string,
    roomType: string,
    checkInDate: string,
    checkOutDate: string,
    billItems: seq<BillItem>,
    subtotal: real,
    taxRate: real,
    taxAmount: real,
    total: real,
    depositPaid: real,
    balanceDue: real)

  const MockCheckoutData: CheckoutData := CheckoutData(
    "John Doe", "301", "Deluxe King", "May 5, 2025", "May 9, 2025",
    [ BillItem("1", "Room Charge - Deluxe King", "May 5, 2025", 199.00),
      BillItem("2", "Room Charge - Deluxe King", "May 6, 2025", 199.00),
      BillItem("3", "Room Charge - Deluxe King", "May 7, 2025", 199.00),
      BillItem("4", "Room Charge - Deluxe King", "May 8, 2025", 199.00),
      BillItem("5", "Room Service - Dinner", "May 6, 2025", 45.00),
      BillItem("6", "Mini Bar", "May 7, 2025", 18.50) ],
    859.50, 0.12, 103.14, 962.64, 200.00, 762.64)

  /** The sum of the item amounts, added up from the first item. */
  function BillSum(items: seq<BillItem>): real
  {
    if items == [] then 0.0 else BillSum(items[..|items| - 1]) + items[|items| - 1].amount
  }

  /** Bill item `i` has id `i + 1` written in decimal. */
  predicate SequentialIds(items: seq<BillItem>)
  {
    forall i :: 0 <= i < |items| ==> items[i].id == NatToString(i + 1)
  }

  /** The figures derive from one another: tax from subtotal and rate, total
      from subtotal and tax, balance from total and deposit. */
  predicate TotalsConsistent(d: CheckoutData)
  {
    && d.taxAmount == d.subtotal * d.taxRate
    && d.total == d.subtotal + d.taxAmount
    && d.balanceDue == d.total - d.depositPaid
  }

  /** The bill's invariant: the subtotal is the sum of the items, the other
      figures follow from it, and the ids count up from 1. */
  predicate Consistent(d: CheckoutData)
  {
    d.subtotal == BillSum(d.billItems) && TotalsConsistent(d) && SequentialIds(d.billItems)
  }

  /** The fee of a non-standard option: 20 for 1pm, 40 for 3pm, 60 for any
      other. */
  function LateCheckoutFee(option: string): (fee: real)
    ensures fee == 20.0 <==> option == "1pm"
    ensures fee == 40.0 <==> option == "3pm"
    ensures fee == 60.0 <==> option != "1pm" && option != "3pm"
  {
    if option == "1pm" then 20.0 else if option == "3pm" then 40.0 else 60.0
  }

  /** The updater passed to `setCheckoutData` for a non-standard option: the
      fee is added to the subtotal, tax, total and balance are recomputed in
      that order, and one item is appended for the fee. */
  function WithLateCheckout(prev: CheckoutData, option: string): (r: CheckoutData)
    ensures |r.billItems| == |prev.billItems| + 1 && r.billItems[..|prev.billItems|] == prev.billItems
    ensures r.billItems[|prev.billItems|]
         == BillItem(NatToString(|prev.billItems| + 1), "Late Checkout (" + option + ")",
                     prev.checkOutDate, LateCheckoutFee(option))
    ensures r.subtotal == prev.subtotal + LateCheckoutFee(option)
    ensures r.taxAmount == r.subtotal * prev.taxRate
    ensures r.total == r.subtotal + r.taxAmount
    ensures r.balanceDue == r.total - prev.depositPaid
    ensures r.(billItems := prev.billItems, subtotal := prev.subtotal, taxAmount := prev.taxAmount,
               total := prev.total, balanceDue := prev.balanceDue) == prev
  {
    var fee := LateCheckoutFee(option);
    var newSubtotal := prev.subtotal + fee;
    var newTaxAmount := newSubtotal * prev.taxRate;
    var newTotal := newSubtotal + newTaxAmount;
    var newBalanceDue := newTotal - prev.depositPaid;
    var item := BillItem(NatToString(|prev.billItems| + 1), "Late Checkout (" + option + ")", prev.checkOutDate, fee);
    prev.(subtotal := newSubtotal, taxAmount := newTaxAmount, total := newTotal,
          balanceDue := newBalanceDue, billItems := prev.billItems + [item])
  }

  lemma BillSumAppend(items: seq<BillItem>, item: BillItem)
    ensures BillSum(items + [item]) == BillSum(items) + item.amount
  {
    assert (items + [item])[..|items|] == items;
  }

  /** The mock bill satisfies the invariant. */
  lemma MockIsConsistent()
    ensures Consistent(MockCheckoutData)
  {
    var items := MockCheckoutData.billItems;
    assert items[..0] == [];
    assert BillSum(items[..1]) == 199.00 by { assert items[..1][..0] == items[..0]; }
    assert BillSum(items[..2]) == 398.00 by { assert items[..2][..1] == items[..1]; }
    assert BillSum(items[..3]) == 597.00 by { assert items[..3][..2] == items[..2]; }
    assert BillSum(items[..4]) == 796.00 by { assert items[..4][..3] == items[..3]; }
    assert BillSum(items[..5]) == 841.00 by { assert items[..5][..4] == items[..4]; }
    assert BillSum(items) == 859.50 by { assert items[..6] == items; assert items[..6][..5] == items[..5]; }
    forall i | 0 <= i < |items|
      ensures items[i].id == NatToString(i + 1)
    {
      assert NatToString(i + 1) == [DigitChar(i + 1)];
    }
  }

  /** The recalculation keeps the invariant, whatever the option. */
  lemma LateCheckoutKeepsConsistent(d: CheckoutData, option: string)
    requires Consistent(d)
    ensures Consistent(WithLateCheckout(d, option))
  {
    var r := WithLateCheckout(d, option);
    var item := r.billItems[|d.billItems|];
    assert r.billItems == d.billItems + [item];
    BillSumAppend(d.billItems, item);
    SequentialIdsAppend(d.billItems, item);
    LateCheckoutTotals(d, option);
  }

  /** The recalculated figures derive from one another, whatever the bill. */
  lemma LateCheckoutTotals(d: CheckoutData, option: string)
    ensures TotalsConsistent(WithLateCheckout(d, option))
  {
    var r := WithLateCheckout(d, option);
    assert r.taxRate == d.taxRate && r.depositPaid == d.depositPaid;
  }

  lemma SequentialIdsAppend(items: seq<BillItem>, item: BillItem)
    requires SequentialIds(items) && item.id == NatToString(|items| + 1)
    ensures SequentialIds(items + [item])
  {
  }

  /** Fees accumulate: a second late-checkout choice appends a second line
      and adds its fee on top; the first line stays. */
  lemma FeesAccumulate(d: CheckoutData, first: string, second: string)
    requires Consistent(d)
    ensures var r := WithLateCheckout(WithLateCheckout(d, first), second);
      && |r.billItems| == |d.billItems| + 2
      && r.billItems[..|d.billItems|] == d.billItems
      && r.billItems[|d.billItems|].amount == LateCheckoutFee(first)
      && r.billItems[|d.billItems| + 1].amount == LateCheckoutFee(second)
      && r.subtotal == BillSum(d.billItems) + LateCheckoutFee(first) + LateCheckoutFee(second)
      && Consistent(r)
  {
    var once := WithLateCheckout(d, first);
    LateCheckoutKeepsConsistent(d, first);
    LateCheckoutKeepsConsistent(once, second);
    var r := WithLateCheckout(once, second);
    assert r.billItems[..|d.billItems|] == once.billItems[..|once.billItems|][..|d.billItems|];
  }

  /** Choosing 1pm on the mock bill: subtotal 879.50, tax 105.54, total
      985.04, balance 785.04. */
  lemma OnePmOnMockBill()
    ensures var r := WithLateCheckout(MockCheckoutData, "1pm");
      r.subtotal == 879.50 && r.taxAmount == 105.54 && r.total == 985.04 && r.balanceDue == 785.04
      && r.billItems[6] == BillItem("7", "Late Checkout (1pm)", "May 9, 2025", 20.0)
  {
    assert NatToString(7) == "7";
  }

  datatype PaymentMethod = CardOnFile | NewCard | PayAtDesk

  /** The page's state: the bill, the late-checkout choice and the payment
      method with its new-card form flag. */
  class CheckOutPage {
    var checkoutData: CheckoutData
    var lateCheckout: string
    var paymentMethod: PaymentMethod
    var showNewCardForm: bool

    ghost predicate Valid()
      reads this
    {
      Consistent(checkoutData) && (showNewCardForm <==> paymentMethod == NewCard)
    }

    constructor ()
      ensures Valid()
      ensures checkoutData == MockCheckoutData && lateCheckout == "standard"
      ensures paymentMethod == CardOnFile && !showNewCardForm
    {
      checkoutData := MockCheckoutData;
      lateCheckout := "standard";
      paymentMethod := CardOnFile;
      showNewCardForm := false;
      MockIsConsistent();
    }

    /** `handleLateCheckoutChange`: the choice is recorded; "standard" leaves
        the bill alone, any other choice applies `WithLateCheckout`. */
    method HandleLateCheckoutChange(value: string)
      requires Valid()
      modifies this
      ensures Valid()
      ensures lateCheckout == value
      ensures value == "standard" ==> checkoutData == old(checkoutData)
      ensures value != "standard" ==> checkoutData == WithLateCheckout(old(checkoutData), value)
      ensures paymentMethod == old(paymentMethod) && showNewCardForm == old(showNewCardForm)
    {
      lateCheckout := value;
      if value != "standard" {
        LateCheckoutKeepsConsistent(checkoutData, value);
        checkoutData := WithLateCheckout(checkoutData, value);
      }
    }

    /** `handlePaymentMethodChange`: the new-card form shows exactly for
        "new-card". */
    method HandlePaymentMethodChange(m: PaymentMethod)
      requires Valid()
      modifies this
      ensures Valid()
      ensures paymentMethod == m && (showNewCardForm <==> m == NewCard)
      ensures checkoutData == old(checkoutData) && lateCheckout == old(lateCheckout)
    {
      paymentMethod := m;
      showNewCardForm := m == NewCard;
    }
  }
}
