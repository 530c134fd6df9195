/** The two steps of the interactive loop `menu_interativo` that change
    state (main.py:122-183): choosing a menu entry by its number, and
    finalizing the current order. Input, output and the loop itself are not
    modelled; the chosen text is a parameter and the saved records are
    returned instead of written. */
module Session {
  import opened Wrappers
  import opened Text
  import opened Menu
  import opened Orders
  import opened Restaurants

  // ---------------------------------------------------------------------
  // Choosing an entry (option "2")

  /** The entry a typed choice selects: the text must be all digits and its
      value `n` must satisfy 1 <= n <= |menu|; it then selects `menu[n - 1]`. */
  function Select(choice: string, menu: seq<MenuItem>): (r: Option<MenuItem>)
    ensures r.Some? <==> IsDigits(choice) && 1 <= ParseNat(choice) <= |menu|
    ensures r.Some? ==> r.value == menu[ParseNat(choice) - 1]
  {
    if IsDigits(choice) && 1 <= ParseNat(choice) <= |menu| then Some(menu[ParseNat(choice) - 1]) else None
  }

  /** Typing the number shown in front of entry `k` selects that entry. The
      tables of options 1 and 2 (main.py:147-148, 155-156) number the entries
      from 1, as `MenuLines` does. */
  lemma SelectListedNumber(menu: seq<MenuItem>, k: nat)
    requires k < |menu|
    ensures Select(NatToString(k + 1), menu) == Some(menu[k])
    ensures MenuLines(menu)[k] == NatToString(k + 1) + ". " + Details(menu[k], true)
  {
    ParseNatOfNatToString(k + 1);
  }

  /** A number outside 1..|menu| is rejected, and so is every choice on an empty menu. */
  lemma SelectRejectsOutOfRange(menu: seq<MenuItem>, n: nat)
    requires n == 0 || n > |menu|
    ensures Select(NatToString(n), menu) == None
  {
    ParseNatOfNatToString(n);
  }

  /** A leading zero selects the same entry as the number without it (`int("01") == 1`). */
  lemma SelectLeadingZero(menu: seq<MenuItem>, choice: string)
    requires IsDigits(choice)
    ensures Select("0" + choice, menu) == Select(choice, menu)
  {
    ParseNatLeadingZero(choice);
  }

  /** Text that is not a plain digit string is rejected, whatever the menu. */
  lemma SelectRejectsNonDigits(menu: seq<MenuItem>)
    ensures Select("", menu) == None
    ensures Select("-1", menu) == None
    ensures Select(" 1", menu) == None
    ensures Select("1.0", menu) == None
  {
    assert !IsDigitChar('-') && !IsDigitChar(' ') && !IsDigitChar('.');
    assert "1.0"[1] == '.';
  }

  /** Option "2": add the chosen entry to the current order, or leave the order
      as it was when the choice is rejected. */
  method AddChoice(r: Restaurant, order: Order, choice: string) returns (accepted: bool)
    modifies order
    ensures accepted == Select(choice, r.menu).Some?
    ensures order.items == old(order.items) + (if accepted then [Select(choice, r.menu).value] else [])
  {
    if IsDigits(choice) && 1 <= ParseNat(choice) <= |r.menu| {
      var chosen := r.menu[ParseNat(choice) - 1];
      order.AddItem(chosen);
      accepted := true;
    } else {
      accepted := false;
    }
  }

  // ---------------------------------------------------------------------
  // Finalizing (option "4")

  /** Option "4" as written: store the current order object, save every stored
      order, then empty the current order. Every stored entry that is this
      same object is emptied with it. */
  method FinalizeOrder(r: Restaurant, order: Order) returns (saved: seq<OrderRecord>)
    modifies r, order
    ensures r.menu == old(r.menu) && r.orders == old(r.orders) + [order]
    ensures saved == old(r.SaveOrders()) + [Snapshot(old(order.items))]
    ensures order.items == []
    ensures forall i :: 0 <= i < |r.orders| ==>
      r.SaveOrders()[i] == if r.orders[i] == order then Snapshot([]) else saved[i]
  {
    ghost var before := r.orders;
    r.PlaceOrder(order);
    SavedRecordsAppend(before, order);
    saved := r.SaveOrders();
    SavedRecordsAll(r.orders);
    order.Clear();
    SavedRecordsAll(r.orders);
  }

  /** Option "4" with the stored order copied: clearing the current order no
      longer reaches what was finalized. */
  method FinalizeOrderCopied(r: Restaurant, order: Order) returns (saved: seq<OrderRecord>)
    requires order !in r.orders
    modifies r, order
    ensures r.menu == old(r.menu) && order !in r.orders
    ensures |r.orders| == |old(r.orders)| + 1 && r.orders[..|old(r.orders)|] == old(r.orders)
    ensures saved == old(r.SaveOrders()) + [Snapshot(old(order.items))]
    ensures order.items == []
    ensures r.SaveOrders() == saved
  {
    ghost var before := r.orders;
    var copy := r.PlaceOrderCopy(order);
    SavedRecordsAppend(before, copy);
    saved := r.SaveOrders();
    order.Clear();
  }

  // ---------------------------------------------------------------------
  // Two orders in one session

  const COCA_COLA: MenuItem := MenuItem(Beverage, "Coca-Cola", 5.0, "Refrigerante gelado")
  const X_SALADA: MenuItem := MenuItem(Food, "X-salada", 40.0, "Pão brioche, hambúrguer, queijo cheedar, alface e tomate")

  /** As written: a beverage order, then a food order. The first save is right,
      but the second save writes the food order twice: the first order is lost,
      because the one stored object now holds the second order's items. */
  method TwoOrdersAsWritten() returns (firstSave: seq<OrderRecord>, secondSave: seq<OrderRecord>)
    ensures firstSave == [Snapshot([COCA_COLA])]
    ensures secondSave == [Snapshot([X_SALADA]), Snapshot([X_SALADA])]
    ensures secondSave[0] != firstSave[0]
  {
    var r := new Restaurant();
    var order := new Order();
    order.AddItem(COCA_COLA);
    firstSave := FinalizeOrder(r, order);
    order.AddItem(X_SALADA);
    secondSave := FinalizeOrder(r, order);
    SingleItemTotals();
  }

  lemma SingleItemTotals()
    ensures Snapshot([COCA_COLA]).total == 5.5
    ensures Snapshot([X_SALADA]).total == 40.0
  {
    assert [COCA_COLA][..0] == [] && [X_SALADA][..0] == [];
    assert Price(COCA_COLA) == 5.0 * BEVERAGE_FACTOR == 5.5;
    assert Price(X_SALADA) == 40.0;
    assert SumPrices([]) == 0.0;
    assert SumPrices([COCA_COLA]) == SumPrices([]) + Price(COCA_COLA);
    assert SumPrices([X_SALADA]) == SumPrices([]) + Price(X_SALADA);
  }

  /** With the copy: the second save holds both orders, in order, each with its own total. */
  method TwoOrdersCopied() returns (firstSave: seq<OrderRecord>, secondSave: seq<OrderRecord>)
    ensures firstSave == [Snapshot([COCA_COLA])]
    ensures secondSave == [Snapshot([COCA_COLA]), Snapshot([X_SALADA])]
    ensures secondSave[0].total == 5.5 && secondSave[1].total == 40.0
  {
    var r := new Restaurant();
    var order := new Order();
    order.AddItem(COCA_COLA);
    assert order.items == [COCA_COLA];
    assert r.SaveOrders() == [];
    firstSave := FinalizeOrderCopied(r, order);
    assert firstSave == [Snapshot([COCA_COLA])];
    order.AddItem(X_SALADA);
    assert order.items == [X_SALADA];
    assert r.SaveOrders() == firstSave;
    secondSave := FinalizeOrderCopied(r, order);
    assert secondSave == firstSave + [Snapshot([X_SALADA])];
    SingleItemTotals();
  }
}
