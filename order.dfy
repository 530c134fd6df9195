/** The order, `Pedido` (main.py:55-71): a list of chosen menu items that is
    appended to, summed, rendered, and emptied. */
module Orders {
  import opened Text
  import opened Menu

  /** `calcular_total` over a list of items: start from 0 and add the charged
      prices from left to right. */
  function SumPrices(items: seq<MenuItem>): (total: real)
    ensures items == [] ==> total == 0.0
  {
    if items == [] then 0.0 else SumPrices(items[..|items| - 1]) + Price(items[|items| - 1])
  }

  /** Sum of the base prices, with no surcharge. */
  function BaseSum(items: seq<MenuItem>): real {
    if items == [] then 0.0 else items[0].price + BaseSum(items[1..])
  }

  /** Sum of the base prices of the beverages only. */
  function BeverageBaseSum(items: seq<MenuItem>): real {
    if items == [] then 0.0
    else (if items[0].kind == Beverage then items[0].price else 0.0) + BeverageBaseSum(items[1..])
  }

  /** The total of two lists put together is the sum of their totals. */
  lemma {:induction false} SumPricesConcat(a: seq<MenuItem>, b: seq<MenuItem>)
    ensures SumPrices(a + b) == SumPrices(a) + SumPrices(b)
    decreases |b|
  {
    if b == [] {
      assert a + b == a;
    } else {
      var b' := b[..|b| - 1];
      assert (a + b)[..|a + b| - 1] == a + b';
      assert (a + b)[|a + b| - 1] == b[|b| - 1];
      SumPricesConcat(a, b');
    }
  }

  /** The total is the sum of the base prices plus a tenth of the beverages'
      base prices: the surcharge falls on beverages and nothing else. */
  lemma {:induction false} SumPricesSplit(items: seq<MenuItem>)
    ensures SumPrices(items) == BaseSum(items) + BeverageBaseSum(items) / 10.0
    decreases |items|
  {
    if items != [] {
      var rest := items[1..];
      assert items == [items[0]] + rest;
      SumPricesConcat([items[0]], rest);
      assert SumPrices([items[0]]) == Price(items[0]) by {
        assert [items[0]][..0] == [];
      }
      SumPricesSplit(rest);
    }
  }

  /** When every chosen item is charged the same price (the same menu entry
      chosen again and again), the total is that price times the count:
      repeated items count each time. */
  lemma {:induction false} SumPricesUniform(items: seq<MenuItem>, p: real)
    requires forall i :: 0 <= i < |items| ==> Price(items[i]) == p
    ensures SumPrices(items) == |items| as real * p
    decreases |items|
  {
    if items != [] {
      var m := |items| - 1;
      SumPricesUniform(items[..m], p);
      assert SumPrices(items) == SumPrices(items[..m]) + p;
      MultiplySuccessor(m, p);
    }
  }

  lemma MultiplySuccessor(m: nat, p: real)
    ensures m as real * p + p == (m + 1) as real * p
  {
  }

  /** With non-negative base prices the total is at least the sum of the base prices. */
  lemma SumPricesAtLeastBase(items: seq<MenuItem>)
    requires forall i :: 0 <= i < |items| ==> items[i].price >= 0.0
    ensures SumPrices(items) >= BaseSum(items) >= 0.0
  {
    BeverageBaseSumNonNegative(items);
    BaseSumNonNegative(items);
    SumPricesSplit(items);
  }

  lemma {:induction false} BeverageBaseSumNonNegative(items: seq<MenuItem>)
    requires forall i :: 0 <= i < |items| ==> items[i].price >= 0.0
    ensures BeverageBaseSum(items) >= 0.0
    decreases |items|
  {
    if items != [] {
      BeverageBaseSumNonNegative(items[1..]);
    }
  }

  lemma {:induction false} BaseSumNonNegative(items: seq<MenuItem>)
    requires forall i :: 0 <= i < |items| ==> items[i].price >= 0.0
    ensures BaseSum(items) >= 0.0
    decreases |items|
  {
    if items != [] {
      BaseSumNonNegative(items[1..]);
    }
  }

  /** A 5.00 beverage and a 40.00 food item from the seed menu total 45.50. */
  lemma BeverageAndFoodTotal()
    ensures SumPrices([MenuItem(Beverage, "Coca-Cola", 5.0, "Refrigerante gelado"),
                       MenuItem(Food, "X-salada", 40.0, "Pão brioche, hambúrguer, queijo cheedar, alface e tomate")])
      == 45.5
  {
  }

  // ---------------------------------------------------------------------
  // Rendering (`exibir_pedido`)

  /** One short display line (`exibir_detalhes()` without description) per item. */
  function DetailLines(items: seq<MenuItem>): (r: seq<string>)
    ensures |r| == |items|
    ensures forall i :: 0 <= i < |items| ==> r[i] == Details(items[i], false)
  {
    seq(|items|, i requires 0 <= i < |items| => Details(items[i], false))
  }

  /** The total line: the label, then the total with two decimals. */
  function TotalLine(total: real): (line: string)
    ensures "Total do pedido: R$" <= line
    ensures line[|"Total do pedido: R$"|..] == FormatPrice(total)
  {
    "Total do pedido: R$" + FormatPrice(total)
  }

  /** `exibir_pedido`: the item lines joined by newlines, a newline, and the
      total line. The text starts with the first item's short line and ends
      with a newline and the total line; an empty order shows nothing else. */
  function RenderOrder(items: seq<MenuItem>): (s: string)
    ensures var tail := "\n" + TotalLine(SumPrices(items));
      && |tail| <= |s| && s[|s| - |tail|..] == tail
      && (items == [] ==> s == tail)
    ensures items != [] ==> Details(items[0], false) <= s
  {
    var body := Join(DetailLines(items));
    var tail := "\n" + TotalLine(SumPrices(items));
    ConcatEnds(body, tail);
    if items == [] then body + tail
    else
      JoinEnds(DetailLines(items));
      PrefixExtends(Details(items[0], false), body, tail);
      body + tail
  }

  /** The lines an order renders to: one per item, or a single empty line
      for an empty order, followed by the total line. */
  function OrderLines(items: seq<MenuItem>): seq<string> {
    (if items == [] then [""] else DetailLines(items)) + [TotalLine(SumPrices(items))]
  }

  /** Read line by line, the rendering is one line per item followed by the
      total line; an empty order renders an empty first line and the total. */
  lemma RenderOrderLines(items: seq<MenuItem>)
    requires forall i :: 0 <= i < |items| ==> NoNewline(items[i].name) && NoNewline(items[i].description)
    ensures Split(RenderOrder(items)) == OrderLines(items)
  {
    RenderOrderIsJoin(items);
    OrderLinesNoNewline(items);
    SplitJoin(OrderLines(items));
  }

  lemma RenderOrderIsJoin(items: seq<MenuItem>)
    ensures RenderOrder(items) == Join(OrderLines(items))
  {
    var total := TotalLine(SumPrices(items));
    var body := Join(DetailLines(items));
    assert RenderOrder(items) == body + "\n" + total;
    if items == [] {
      assert OrderLines(items) == ["", total];
    } else {
      JoinAppend(DetailLines(items), total);
    }
  }

  lemma OrderLinesNoNewline(items: seq<MenuItem>)
    requires forall i :: 0 <= i < |items| ==> NoNewline(items[i].name) && NoNewline(items[i].description)
    ensures forall i :: 0 <= i < |OrderLines(items)| ==> NoNewline(OrderLines(items)[i])
  {
    TotalLineNoNewline(SumPrices(items));
    DetailLinesNoNewline(items);
  }

  lemma TotalLineNoNewline(total: real)
    ensures NoNewline(TotalLine(total))
  {
    FormatPriceChars(total);
  }

  lemma DetailLinesNoNewline(items: seq<MenuItem>)
    requires forall i :: 0 <= i < |items| ==> NoNewline(items[i].name) && NoNewline(items[i].description)
    ensures forall i :: 0 <= i < |items| ==> NoNewline(DetailLines(items)[i])
  {
    forall i | 0 <= i < |items| ensures NoNewline(DetailLines(items)[i]) {
      DetailsNoNewline(items[i], false);
    }
  }

  /** The rendering of an emptied order: no item line, total zero. */
  lemma RenderEmptyOrder()
    ensures RenderOrder([]) == "\nTotal do pedido: R$0.00"
  {
    assert RenderOrder([]) == "\n" + TotalLine(0.0);
    FormatPriceWholeUnits(0);
    assert FormatPrice(0.0) == "0.00" by {
      assert DigitChar(0) == '0';
    }
  }

  // ---------------------------------------------------------------------
  // The mutable order

  class Order {
    /** `__itens`: the chosen items in the order they were added; repeats allowed. */
    var items: seq<MenuItem>

    constructor ()
      ensures items == []
    {
      items := [];
    }

    /** `calcular_total`. */
    function Total(): real
      reads this
    {
      SumPrices(items)
    }

    /** `exibir_pedido`. */
    function Render(): string
      reads this
    {
      RenderOrder(items)
    }

    /** `adicionar_item`: append at the end; the total grows by the item's price. */
    method AddItem(item: MenuItem)
      modifies this
      ensures items == old(items) + [item]
      ensures Total() == old(Total()) + Price(item)
    {
      items := items + [item];
      assert items[..|items| - 1] == old(items);
    }

    /** `limpar_pedido`: a new empty list replaces the old one. */
    method Clear()
      modifies this
      ensures items == [] && Total() == 0.0
      ensures Render() == "\nTotal do pedido: R$0.00"
    {
      items := [];
      RenderEmptyOrder();
    }
  }
}
