/** The restaurant, `Restaurante` (main.py:75-118): the menu, the list of
    placed orders, the menu listing, loading the menu from parsed records and
    turning the placed orders into the records that are saved. The stored
    orders are references to `Order` objects, as in the source. */
module Restaurants {
  import opened Wrappers
  import opened Text
  import opened Menu
  import opened Orders

  // ---------------------------------------------------------------------
  // Loading the menu (`carregar_menu`)

  /** One parsed entry of the menu file: `tipo`, `nome`, `preco`, `descricao`. */
  datatype MenuRecord = MenuRecord(tag: string, name: string, price: real, description: string)

  /** The tag the menu file uses for each kind. */
  function TagOf(kind: Kind): string {
    match kind
    case Beverage => "Bebida"
    case Food => "Comida"
    case Dessert => "Sobremesa"
  }

  /** The kind a tag selects; any other tag selects none. A selected kind
      is the one whose tag was given. */
  function KindOfTag(tag: string): (k: Option<Kind>)
    ensures k.Some? <==> tag == "Bebida" || tag == "Comida" || tag == "Sobremesa"
    ensures k.Some? ==> TagOf(k.value) == tag
  {
    if tag == "Bebida" then Some(Beverage)
    else if tag == "Comida" then Some(Food)
    else if tag == "Sobremesa" then Some(Dessert)
    else None
  }

  /** Tags and kinds correspond one to one: a tag selects a kind exactly when
      it is that kind's tag. */
  lemma TagsMatchKinds(tag: string, kind: Kind)
    ensures KindOfTag(tag) == Some(kind) <==> tag == TagOf(kind)
  {
  }

  /** The item a record becomes, if its tag is one of the three; written
      back as a record, that item gives the same record. */
  function ItemOfRecord(rec: MenuRecord): (r: Option<MenuItem>)
    ensures r.Some? <==> KindOfTag(rec.tag).Some?
    ensures r.Some? ==> RecordOf(r.value) == rec
  {
    match KindOfTag(rec.tag)
    case None => None
    case Some(kind) => Some(MenuItem(kind, rec.name, rec.price, rec.description))
  }

  /** The items the records become, in file order; records with another tag
      are skipped. */
  function Parsed(recs: seq<MenuRecord>): (items: seq<MenuItem>)
    ensures |items| <= |recs|
  {
    if recs == [] then []
    else
      match ItemOfRecord(recs[0])
      case None => Parsed(recs[1..])
      case Some(item) => [item] + Parsed(recs[1..])
  }

  lemma {:induction false} ParsedConcat(a: seq<MenuRecord>, b: seq<MenuRecord>)
    ensures Parsed(a + b) == Parsed(a) + Parsed(b)
    decreases |a|
  {
    if a == [] {
      assert a + b == b;
    } else {
      assert (a + b)[1..] == a[1..] + b;
      ParsedConcat(a[1..], b);
    }
  }

  /** A record with an unknown tag contributes nothing, wherever it stands. */
  lemma ParsedSkipsUnknown(a: seq<MenuRecord>, rec: MenuRecord, b: seq<MenuRecord>)
    requires KindOfTag(rec.tag) == None
    ensures Parsed(a + [rec] + b) == Parsed(a) + Parsed(b)
  {
    ParsedConcat(a + [rec], b);
    ParsedConcat(a, [rec]);
  }

  /** Records whose tags are all known become exactly as many items, each
      with its record's kind, name, price and description. */
  lemma {:induction false} ParsedKnownTags(recs: seq<MenuRecord>)
    requires forall i :: 0 <= i < |recs| ==> KindOfTag(recs[i].tag).Some?
    ensures |Parsed(recs)| == |recs|
    ensures forall i :: 0 <= i < |recs| ==>
      Parsed(recs)[i] == MenuItem(KindOfTag(recs[i].tag).value, recs[i].name, recs[i].price, recs[i].description)
    decreases |recs|
  {
    if recs != [] {
      ParsedKnownTags(recs[1..]);
      var items := Parsed(recs);
      assert items == [items[0]] + Parsed(recs[1..]);
      forall i | 1 <= i < |recs|
        ensures items[i] == MenuItem(KindOfTag(recs[i].tag).value, recs[i].name, recs[i].price, recs[i].description)
      {
        assert recs[1..][i - 1] == recs[i];
      }
    }
  }

  /** The record an item would be written as. */
  function RecordOf(item: MenuItem): MenuRecord {
    MenuRecord(TagOf(item.kind), item.name, item.price, item.description)
  }

  function RecordsOf(items: seq<MenuItem>): (recs: seq<MenuRecord>)
    ensures |recs| == |items| && forall i :: 0 <= i < |items| ==> recs[i] == RecordOf(items[i])
  {
    seq(|items|, i requires 0 <= i < |items| => RecordOf(items[i]))
  }

  /** Loading the records of a menu gives that menu back, kind for kind. */
  lemma {:induction false} LoadRecordsOfMenu(items: seq<MenuItem>)
    ensures Parsed(RecordsOf(items)) == items
    decreases |items|
  {
    if items != [] {
      assert RecordsOf(items)[1..] == RecordsOf(items[1..]);
      LoadRecordsOfMenu(items[1..]);
    }
  }

  // ---------------------------------------------------------------------
  // Saving the orders (`salvar_pedidos`)

  /** One saved order: `itens` (the short display lines) and `total`. */
  datatype OrderRecord = OrderRecord(lines: seq<string>, total: real)

  /** The record of an order holding `items`: one short display line per
      item and the total; an empty order gives no lines and 0. */
  function Snapshot(items: seq<MenuItem>): (r: OrderRecord)
    ensures |r.lines| == |items|
    ensures items == [] ==> r == OrderRecord([], 0.0)
  {
    OrderRecord(DetailLines(items), SumPrices(items))
  }

  /** The records of the stored orders, in the order stored, each made from
      that order object's items as they are when the records are made. */
  function SavedRecords(orders: seq<Order>): (r: seq<OrderRecord>)
    reads orders
    ensures |r| == |orders|
  {
    if orders == [] then []
    else SavedRecords(orders[..|orders| - 1]) + [Snapshot(orders[|orders| - 1].items)]
  }

  /** Record `i` is made from stored order `i`. */
  lemma {:induction false} SavedRecordAt(orders: seq<Order>, i: nat)
    requires i < |orders|
    ensures SavedRecords(orders)[i] == Snapshot(orders[i].items)
    decreases |orders|
  {
    if i < |orders| - 1 {
      SavedRecordAt(orders[..|orders| - 1], i);
    }
  }

  lemma SavedRecordsAll(orders: seq<Order>)
    ensures forall i :: 0 <= i < |orders| ==> SavedRecords(orders)[i] == Snapshot(orders[i].items)
  {
    forall i | 0 <= i < |orders| ensures SavedRecords(orders)[i] == Snapshot(orders[i].items) {
      SavedRecordAt(orders, i);
    }
  }

  /** Storing one more order adds its record at the end. */
  lemma SavedRecordsAppend(orders: seq<Order>, last: Order)
    ensures SavedRecords(orders + [last]) == SavedRecords(orders) + [Snapshot(last.items)]
  {
    assert (orders + [last])[..|orders|] == orders;
  }

  /** A record lists one line per item and the total its order reports. */
  lemma SnapshotMatchesOrder(o: Order)
    ensures |Snapshot(o.items).lines| == |o.items|
    ensures Snapshot(o.items).total == o.Total()
    ensures forall i :: 0 <= i < |o.items| ==> Snapshot(o.items).lines[i] == Details(o.items[i], false)
  {
  }

  // ---------------------------------------------------------------------
  // The menu listing (`exibir_menu`)

  /** Line `i` is the 1-based position, a dot, and the full display line. */
  function MenuLines(menu: seq<MenuItem>): (lines: seq<string>)
    ensures |lines| == |menu|
    ensures forall i :: 0 <= i < |menu| ==> lines[i] == NatToString(i + 1) + ". " + Details(menu[i], true)
  {
    seq(|menu|, i requires 0 <= i < |menu| => NatToString(i + 1) + ". " + Details(menu[i], true))
  }

  /** `exibir_menu`: the numbered lines joined by newlines. It starts with
      entry 1 and ends with the last entry under the number |menu|; an empty
      menu lists nothing. */
  function MenuListing(menu: seq<MenuItem>): (s: string)
    ensures menu == [] ==> s == ""
    ensures menu != [] ==> "1. " + Details(menu[0], true) <= s
    ensures menu != [] ==>
      var last := NatToString(|menu|) + ". " + Details(menu[|menu| - 1], true);
      |last| <= |s| && s[|s| - |last|..] == last
  {
    var lines := MenuLines(menu);
    if menu == [] then Join(lines)
    else
      JoinEnds(lines);
      assert lines[0] == "1. " + Details(menu[0], true) by {
        assert NatToString(1) == "1";
      }
      assert lines[|lines| - 1] == NatToString(|menu|) + ". " + Details(menu[|menu| - 1], true);
      Join(lines)
  }

  /** Read line by line, a non-empty listing has one numbered line per menu
      entry, in menu order. */
  lemma MenuListingLines(menu: seq<MenuItem>)
    requires |menu| > 0
    requires forall i :: 0 <= i < |menu| ==> NoNewline(menu[i].name) && NoNewline(menu[i].description)
    ensures Split(MenuListing(menu)) == MenuLines(menu)
  {
    var lines := MenuLines(menu);
    forall i | 0 <= i < |lines| ensures NoNewline(lines[i]) {
      DetailsNoNewline(menu[i], true);
    }
    SplitJoin(lines);
  }

  // ---------------------------------------------------------------------
  // The mutable restaurant

  class Restaurant {
    /** `__menu`: the menu entries in the order they were added. */
    var menu: seq<MenuItem>
    /** `__pedidos`: the placed orders, as references to order objects. */
    var orders: seq<Order>

    constructor ()
      ensures menu == [] && orders == []
    {
      menu := [];
      orders := [];
    }

    /** `adicionar_ao_menu`: append one entry; earlier entries stay as they were. */
    method AddToMenu(item: MenuItem)
      modifies this
      ensures menu == old(menu) + [item]
      ensures orders == old(orders)
    {
      menu := menu + [item];
    }

    /** `exibir_menu`. */
    function RenderMenu(): string
      reads this
    {
      MenuListing(menu)
    }

    /** `realizar_pedido`: store the order object itself, not a copy. */
    method PlaceOrder(order: Order)
      modifies this
      ensures orders == old(orders) + [order]
      ensures menu == old(menu)
    {
      orders := orders + [order];
    }

    /** Store a fresh copy of the order instead, so that later changes to the
        live order leave the stored one as it was. */
    method PlaceOrderCopy(order: Order) returns (copy: Order)
      modifies this
      ensures fresh(copy) && copy.items == order.items
      ensures orders == old(orders) + [copy]
      ensures menu == old(menu)
    {
      copy := new Order();
      copy.items := order.items;
      orders := orders + [copy];
    }

    /** `salvar_pedidos`, without the file: the records written. */
    function SaveOrders(): seq<OrderRecord>
      reads this, orders
    {
      SavedRecords(orders)
    }

    /** `carregar_menu` over the parsed file: `None` stands for a missing file,
        which leaves the menu as it was. Each record is dispatched on its tag;
        a record with any other tag is skipped. */
    method LoadMenu(file: Option<seq<MenuRecord>>) returns (found: bool)
      modifies this
      ensures found == file.Some?
      ensures menu == old(menu) + (if found then Parsed(file.value) else [])
      ensures orders == old(orders)
    {
      match file
      case None =>
        found := false;
      case Some(recs) =>
        found := true;
        var i := 0;
        while i < |recs|
          invariant 0 <= i <= |recs|
          invariant menu == old(menu) + Parsed(recs[..i])
          invariant orders == old(orders)
        {
          var rec := recs[i];
          if rec.tag == "Bebida" {
            AddToMenu(MenuItem(Beverage, rec.name, rec.price, rec.description));
          } else if rec.tag == "Comida" {
            AddToMenu(MenuItem(Food, rec.name, rec.price, rec.description));
          } else if rec.tag == "Sobremesa" {
            AddToMenu(MenuItem(Dessert, rec.name, rec.price, rec.description));
          }
          assert recs[..i + 1] == recs[..i] + [rec];
          ParsedConcat(recs[..i], [rec]);
          assert Parsed([rec]) == if KindOfTag(rec.tag).Some? then [ItemOfRecord(rec).value] else [];
          i := i + 1;
        }
        assert recs[..i] == recs;
    }
  }
}
