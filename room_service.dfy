/** src/pages/RoomService.tsx: the menu tabs, the order list with its total,
    and placing the order. The menu fetch and the order call are inputs
    (what the API functions settled to); the timestamp used in item ids is
    an input too. */
module RoomService {
  import opened Common
  import opened Types
  import opened RoomServiceApi

  /** `order.reduce((sum, item) => sum + item.price, 0)` */
  function SumPrices(order: seq<MenuItem>): real
  {
    if order == [] then 0.0 else SumPrices(order[..|order| - 1]) + order[|order| - 1].price
  }

  /** The total effect's loop: the running sum over the order. */
  method OrderTotal(order: seq<MenuItem>) returns (total: real)
    ensures total == SumPrices(order)
  {
    total := 0.0;
    for i := 0 to |order|
      invariant total == SumPrices(order[..i])
    {
      assert order[..i + 1][..i] == order[..i];
      total := total + order[i].price;
    }
    assert order[..|order|] == order;
  }

  /** `prev.filter(item => item.id !== id)`: every item with that id goes,
      the others stay in order, each as many times as it was ordered. */
  function RemoveById(order: seq<MenuItem>, id: string): (r: seq<MenuItem>)
    ensures forall i :: 0 <= i < |r| ==> r[i].id != id
    ensures forall i :: 0 <= i < |order| && order[i].id != id ==> order[i] in r
    ensures IsSubsequence(r, order)
    ensures forall m :: multiset(r)[m] == if m.id != id then multiset(order)[m] else 0
  {
    FilterIsSubsequence((item: MenuItem) => item.id != id, order);
    FilterKeepsMultiplicity((item: MenuItem) => item.id != id, order);
    Filter((item: MenuItem) => item.id != id, order)
  }

  /** The items `RemoveById` drops. */
  function WithId(order: seq<MenuItem>, id: string): seq<MenuItem>
  {
    Filter((item: MenuItem) => item.id == id, order)
  }

  /** Removing lowers the total by exactly the prices of the removed items. */
  lemma {:induction false} RemoveLowersTotal(order: seq<MenuItem>, id: string)
    ensures SumPrices(order) == SumPrices(RemoveById(order, id)) + SumPrices(WithId(order, id))
    decreases |order|
  {
    if order != [] {
      var init, last := order[..|order| - 1], order[|order| - 1];
      RemoveLowersTotal(init, id);
      var kept, gone := RemoveById(order, id), WithId(order, id);
      if last.id == id {
        assert kept == RemoveById(init, id);
        assert gone == WithId(init, id) + [last];
        assert gone[..|gone| - 1] == WithId(init, id);
      } else {
        assert kept == RemoveById(init, id) + [last];
        assert kept[..|kept| - 1] == RemoveById(init, id);
        assert gone == WithId(init, id);
      }
    }
  }

  /** The item list of the order payload: one line per item, in order,
      each with quantity 1. */
  function OrderLines(order: seq<MenuItem>): (lines: seq<OrderLine>)
    ensures |lines| == |order|
    ensures forall i :: 0 <= i < |order| ==>
              lines[i] == OrderLine(order[i].id, order[i].name, order[i].price, 1)
  {
    seq(|order|, i requires 0 <= i < |order| => OrderLine(order[i].id, order[i].name, order[i].price, 1))
  }

  function OrderPayload(order: seq<MenuItem>, total: real): OrderData
  {
    OrderData(OrderLines(order), total, Some(""), None)
  }

  /** What the lines of a payload are worth: price times quantity. */
  function LinesTotal(lines: seq<OrderLine>): real
  {
    if lines == [] then 0.0
    else LinesTotal(lines[..|lines| - 1]) + lines[|lines| - 1].price * lines[|lines| - 1].quantity as real
  }

  /** The total sent with an order is what its lines are worth. */
  lemma {:induction false} PayloadTotalMatchesLines(order: seq<MenuItem>)
    ensures LinesTotal(OrderPayload(order, SumPrices(order)).items) == SumPrices(order)
    decreases |order|
  {
    if order != [] {
      var init := order[..|order| - 1];
      PayloadTotalMatchesLines(init);
      var lines := OrderLines(order);
      assert lines[..|lines| - 1] == OrderLines(init);
    }
  }

  function Item(id: string, price: real): MenuItem
  {
    MenuItem(id, id, "", price, "", None, None)
  }

  /** Prices 12.50, 8.00 and 15.25 add up to 35.75; removing the 8.00 item
      leaves 27.75. */
  lemma RemovingFromThreeItems()
    ensures SumPrices([Item("a", 12.50), Item("b", 8.00), Item("c", 15.25)]) == 35.75
    ensures RemoveById([Item("a", 12.50), Item("b", 8.00), Item("c", 15.25)], "b")
         == [Item("a", 12.50), Item("c", 15.25)]
    ensures SumPrices([Item("a", 12.50), Item("c", 15.25)]) == 27.75
  {
    var order := [Item("a", 12.50), Item("b", 8.00), Item("c", 15.25)];
    assert order[..2][..1] == order[..1];
    assert order[..1][..0] == [];
    assert order[..2] == [Item("a", 12.50), Item("b", 8.00)];
    assert order[..1] == [Item("a", 12.50)];
    assert SumPrices(order[..1]) == 12.50;
    assert SumPrices(order[..2]) == 20.50;
    var keep := (item: MenuItem) => item.id != "b";
    assert Filter(keep, order[..1]) == order[..1];
    assert Filter(keep, order[..2]) == order[..1];
    assert Filter(keep, order) == [order[0], order[2]];
    var kept := [Item("a", 12.50), Item("c", 15.25)];
    assert kept[..1] == [Item("a", 12.50)];
    assert kept[..1][..0] == [];
  }

  /** The page's state. */
  class RoomServicePage {
    var loading: bool
    var error: Option<string>
    var menu: Menu
    var activeTab: string
    var order: seq<MenuItem>
    var orderTotal: real

    /** The displayed total is that of the order. */
    ghost predicate Valid()
      reads this
    {
      orderTotal == SumPrices(order)
    }

    constructor ()
      ensures Valid()
      ensures loading && error.None? && menu == [] && activeTab == "breakfast" && order == []
    {
      loading, error, menu, activeTab, order, orderTotal := true, None, [], "breakfast", [], 0.0;
    }

    /** The mount effect once `getRoomServiceMenu` has settled: a menu is
        shown and its first section becomes the active tab; a failure sets
        the error; loading ends either way. */
    method FetchMenu(fetched: Settled<Menu>)
      modifies this
      ensures !loading && order == old(order) && orderTotal == old(orderTotal)
      ensures fetched.Resolved? ==>
                menu == fetched.value && error == old(error)
                && activeTab == (if fetched.value != [] then fetched.value[0].key else old(activeTab))
      ensures fetched.Rejected? ==>
                error == Some(MessageOr(fetched.err, CommonErrorText))
                && menu == old(menu) && activeTab == old(activeTab)
    {
      match fetched {
        case Resolved(m) =>
          menu := m;
          if |m| > 0 {
            activeTab := m[0].key;
          }
        case Rejected(e) =>
          error := Some(MessageOr(e, CommonErrorText));
      }
      loading := false;
    }

    /** The effect that follows every change of the order. */
    method RecomputeTotal()
      modifies this`orderTotal
      ensures Valid()
    {
      orderTotal := OrderTotal(order);
    }

    /** `handleAddItem`: one copy of the item, under the id
        `<item id>-<timestamp>`, goes to the end; earlier items stay. */
    method HandleAddItem(item: MenuItem, now: nat)
      modifies this
      ensures Valid()
      ensures order == old(order) + [item.(id := item.id + "-" + NatToString(now))]
      ensures loading == old(loading) && error == old(error) && menu == old(menu) && activeTab == old(activeTab)
    {
      order := order + [item.(id := item.id + "-" + NatToString(now))];
      RecomputeTotal();
    }

    /** `handleRemoveItem`: see `RemoveById` and `RemoveLowersTotal`. */
    method HandleRemoveItem(id: string)
      modifies this
      ensures Valid()
      ensures order == RemoveById(old(order), id)
      ensures loading == old(loading) && error == old(error) && menu == old(menu) && activeTab == old(activeTab)
    {
      order := RemoveById(order, id);
      RecomputeTotal();
    }

    /** `handlePlaceOrder` once the order call has settled to `reply`. An
        empty order sends nothing. Otherwise the payload lists every item
        with quantity 1 and the displayed total; an envelope that reports
        failure is thrown as an error with its message or the generic text;
        loading ends on every path that started it. */
    method HandlePlaceOrder(reply: ApiOutcome<OrderResponse>) returns (sent: Option<OrderData>, placed: bool)
      requires Valid()
      modifies this
      ensures Valid()
      ensures order == old(order) && menu == old(menu) && activeTab == old(activeTab)
      ensures order == [] ==> sent.None? && !placed && loading == old(loading) && error == old(error)
      ensures order != [] ==> sent == Some(OrderPayload(order, SumPrices(order))) && !loading
      ensures placed <==> order != [] && reply.Resolved? && reply.value.success
      ensures placed ==> error == old(error)
      ensures order != [] && reply.Resolved? && !reply.value.success ==>
                error == Some(OrElse(reply.value.message, CommonErrorText))
      ensures order != [] && reply.Rejected? ==> error == Some(MessageOr(reply.err, CommonErrorText))
    {
      if |order| == 0 {
        return None, false;
      }
      loading := true;
      sent := Some(OrderPayload(order, orderTotal));
      placed := false;
      match reply {
        case Resolved(response) =>
          if response.success {
            placed := true;
          } else {
            error := Some(OrElse(response.message, CommonErrorText));
          }
        case Rejected(e) =>
          error := Some(MessageOr(e, CommonErrorText));
      }
      loading := false;
    }
  }
}
