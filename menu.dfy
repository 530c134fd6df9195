/** Menu items: the `ItemMenu` class and its three subclasses `Bebida`,
    `Comida` and `Sobremesa` (main.py:4-51). Items are never changed after
    construction, so they are values here: a tagged variant whose tag selects
    the one pricing rule that differs between the subclasses. */
module Menu {
  import opened Text

  /** The three subclasses of `ItemMenu`. */
  datatype Kind = Beverage | Food | Dessert

  /** An item: its kind, name (`nome`), base price (`preco`) and description (`descricao`). */
  datatype MenuItem = MenuItem(kind: Kind, name: string, price: real, description: string)

  /** The service surcharge factor a beverage carries (10%). */
  const BEVERAGE_FACTOR: real := 1.1

  /** `calcular_preco`: a beverage overrides it to add the 10% service charge;
      food and dessert inherit the base price. */
  function Price(item: MenuItem): (r: real)
    ensures item.kind == Beverage ==> r == item.price * BEVERAGE_FACTOR
    ensures item.kind != Beverage ==> r == item.price
  {
    match item.kind
    case Beverage => item.price * BEVERAGE_FACTOR
    case Food => item.price
    case Dessert => item.price
  }

  /** The price differs from the base price exactly for a beverage with a
      non-zero base price, and then by a tenth of the base price. */
  lemma SurchargeOnlyOnBeverages(item: MenuItem)
    ensures Price(item) == item.price <==> item.kind != Beverage || item.price == 0.0
    ensures Price(item) - item.price == if item.kind == Beverage then item.price / 10.0 else 0.0
  {
  }

  /** With a non-negative base price the charged price is never below it. */
  lemma PriceAtLeastBase(item: MenuItem)
    requires item.price >= 0.0
    ensures item.price <= Price(item) <= item.price * BEVERAGE_FACTOR
  {
  }

  /** `exibir_detalhes`: name and BASE price (`self.__preco`, never the
      surcharged one), and the description only when asked for. */
  function Details(item: MenuItem, withDescription: bool): (line: string)
    ensures withDescription <==> |line| > |"Item: " + item.name + " | Preço: R$"| + |FormatPrice(item.price)|
  {
    var short := "Item: " + item.name + " | Preço: R$" + FormatPrice(item.price);
    if withDescription then short + " | Descrição: " + item.description else short
  }

  /** The line starts with the fixed label and the name, and the base price,
      formatted with two decimals, comes right after them. */
  lemma DetailsShowsBasePrice(item: MenuItem, withDescription: bool)
    ensures var head := "Item: " + item.name + " | Preço: R$";
      var shown := FormatPrice(item.price);
      var line := Details(item, withDescription);
      && head <= line
      && |head| + |shown| <= |line|
      && line[|head|..|head| + |shown|] == shown
  {
  }

  /** The display line does not depend on the kind, so a beverage shows the
      same price as a food item with the same base price: the surcharge never
      appears in it. */
  lemma DetailsIgnoreKind(item: MenuItem, k: Kind, withDescription: bool)
    ensures Details(item.(kind := k), withDescription) == Details(item, withDescription)
  {
  }

  /** The full line is the short line followed by the description. */
  lemma DetailsWithDescriptionExtends(item: MenuItem)
    ensures Details(item, true) == Details(item, false) + " | Descrição: " + item.description
  {
  }

  /** The short line does not depend on the description. */
  lemma DetailsShortLine(item: MenuItem)
    ensures Details(item, false) == Details(item.(description := ""), false)
  {
  }

  /** A display line holds no newline when the name and description hold none. */
  lemma DetailsNoNewline(item: MenuItem, withDescription: bool)
    requires NoNewline(item.name) && NoNewline(item.description)
    ensures NoNewline(Details(item, withDescription))
  {
    FormatPriceChars(item.price);
  }

  /** The beverage from the hard-coded seed menu is charged 5.50 but its
      display line shows the base price, 5.00. */
  lemma BeverageShowsBasePrice()
    ensures var coca := MenuItem(Beverage, "Coca-Cola", 5.0, "Refrigerante gelado");
      && Price(coca) == 5.5
      && FormatPrice(coca.price) == "5.00"
      && var line := Details(coca, false); line[|line| - 4..] == "5.00"
  {
    FormatPriceWholeUnits(5);
  }
}
