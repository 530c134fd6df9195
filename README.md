# Restaurant orders: a Dafny model

A model of the object model of a small restaurant ordering program (one
Python file, `main.py`). There are menu items of three kinds: beverage
(`Bebida`), food (`Comida`) and dessert (`Sobremesa`). An order (`Pedido`)
collects chosen items and computes its total. The restaurant (`Restaurante`)
keeps the menu and the placed orders, loads the menu from records and saves
the placed orders as records. Two steps of the interactive loop change state,
and both are modelled: choosing a menu entry by its number, and finalizing
the current order.

Files and modules:

- `text.dfy`, module `Text`: decimal digits, `int()` on a digit string, the
  `:.2f` price format, and `"\n".join` with its inverse `split("\n")`.
- `wrappers.dfy`, module `Wrappers`: `Option`.
- `menu.dfy`, module `Menu`: `ItemMenu` and its subclasses as one datatype
  with a kind tag; the price rule (`calcular_preco`) and the display line
  (`exibir_detalhes`).
- `order.dfy`, module `Orders`: the sum of charged prices, the order
  rendering, and the class `Order` (`adicionar_item`, `calcular_total`,
  `exibir_pedido`, `limpar_pedido`).
- `restaurant.dfy`, module `Restaurants`: menu records and their dispatch on
  the tag, the saved order records, the numbered menu listing, and the class
  `Restaurant` (`adicionar_ao_menu`, `exibir_menu`, `realizar_pedido`,
  `salvar_pedidos`, `carregar_menu`).
- `session.dfy`, module `Session`: the selection rule of option 2, option 4
  (finalize), and two-order scenarios.

Design:

- Menu items never change after construction, so they are values
  (`datatype MenuItem`). An order holding references to them behaves the
  same as one holding the values.
- Orders and the restaurant are changed in place, so they are classes. The
  restaurant's list of placed orders is a `seq<Order>` of references.
  `realizar_pedido` stores the live order object, not a copy. The model
  keeps this, so the effect of the later `limpar_pedido` on the stored
  entries can be seen (see Findings).
- Prices are exact `real`s. The beverage surcharge is the exact factor 1.1.
- `carregar_menu` takes the already-parsed file: `None` stands for a missing
  file, and `Some(records)` for the parsed list. `salvar_pedidos` returns the
  records it would write.
- The model follows the code:
  - finalizing stores the live order object, not a snapshot of it;
  - `adicionar_ao_menu` returns nothing;
  - a record with an unknown tag is skipped.

## Model

| member | source | states |
|---|---|---|
| Menu.Price | main.py:38-39 | a beverage is charged its base price times 1.1; food and dessert are charged the base price |
| Menu.SurchargeOnlyOnBeverages | main.py:10-11 | the charged price equals the base price exactly when the item is not a beverage or costs 0; the difference is a tenth of the base price for a beverage and 0 otherwise |
| Menu.PriceAtLeastBase | main.py:38-39 | with a non-negative base price, the charged price lies between the base price and 1.1 times it |
| Menu.Details | main.py:13-17 | the line extends past the formatted base price exactly when the description is asked for; DetailsShowsBasePrice, DetailsIgnoreKind and DetailsWithDescriptionExtends give the rest of its meaning |
| Menu.DetailsShowsBasePrice | main.py:13-17 | the line starts with the label and the name, and the base price formatted with two decimals comes right after them |
| Menu.DetailsIgnoreKind | main.py:13-17 | the display line does not depend on the kind, so the surcharge never appears in it |
| Menu.DetailsWithDescriptionExtends | main.py:13-17 | the line with the description is the short line followed by the description field and the description |
| Menu.DetailsShortLine | main.py:17 | the short line does not depend on the description |
| Menu.DetailsNoNewline | main.py:13-17 | a display line has no newline when the name and description have none |
| Menu.BeverageShowsBasePrice | main.py:126 | the 5.00 Coca-Cola is charged 5.50, but its display line ends in "5.00" |
| Text.IsDigits | main.py:159 | non-empty, and every character an ASCII digit: Python's `isdigit` restricted to ASCII; DigitsCanonical and ParseNatLeadingZero relate it to the value `int` gives |
| Text.NatToString | main.py:84 | the rendering of a number is a non-empty digit string with no leading zero |
| Text.ParseNatOfNatToString | main.py:159 | parsing the rendering of n gives n back |
| Text.DigitsCanonical | main.py:159 | a digit string without a leading zero is the rendering of its own value, so rendering and parsing are inverse on such strings |
| Text.ParseNatLeadingZero | main.py:159 | a leading zero does not change the parsed value |
| Text.FormatCentsRoundTrip | main.py:17 | the two-decimal format has a dot third from the end, and removing the dot and parsing gives back the cent amount |
| Text.RoundCentsExact | main.py:17 | a price given in exact cents is rounded to those cents |
| Text.FormatPriceWholeUnits | main.py:17 | a whole price d below ten is shown as d followed by ".00" |
| Text.ParseNat | main.py:159 | a string of k digits denotes a number below 10^k, and at least 10^(k-1) when it has no leading zero; ParseNatOfNatToString and ParseNatLeadingZero give the rest of its meaning |
| Text.FormatPrice | main.py:17 | the price text has at least four characters (a digit, the dot, two decimals); FormatPriceShape, FormatCentsRoundTrip and RoundCentsExact give its meaning |
| Text.FormatPriceShape | main.py:17 | the price text ends in a dot and two digits, and starts with a minus sign exactly when the price is negative |
| Text.Join | main.py:66 | no lines join to the empty text; JoinEnds, JoinAppend and SplitJoin give the rest of its meaning |
| Text.JoinEnds | main.py:66 | a join of lines begins with the first line and ends with the last one |
| Text.SplitFirstLine | main.py:66 | splitting a newline-free line, a newline and the rest gives that line followed by the split of the rest |
| Text.JoinAppend | main.py:66 | joining one more line adds a newline and that line |
| Text.SplitJoin | main.py:66 | splitting the join of newline-free lines at newlines gives the lines back |
| Orders.SumPrices | main.py:62-63 | an empty order totals 0; SumPricesConcat, SumPricesSplit, SumPricesUniform and SumPricesAtLeastBase give the rest of its meaning |
| Orders.SumPricesConcat | main.py:62-63 | the total of two item lists put together is the sum of their totals |
| Orders.SumPricesSplit | main.py:62-63 | the total is the sum of the base prices plus a tenth of the beverages' base prices |
| Orders.SumPricesUniform | main.py:62-63 | when every item is charged p, the total is the number of items times p, so repeated items count each time |
| Orders.SumPricesAtLeastBase | main.py:62-63 | with non-negative base prices, the total is at least the sum of the base prices, which is at least 0 |
| Orders.BeverageAndFoodTotal | main.py:62-63 | a 5.00 beverage and a 40.00 food item total 45.50 |
| Orders.DetailLines | main.py:66 | one short display line per item, in order |
| Orders.TotalLine | main.py:67 | the label "Total do pedido: R$" followed by the total with two decimals |
| Orders.RenderOrder | main.py:65-68 | the text ends with a newline and the total line, starts with the first item's short line when there is one, and is only the newline and the total line for an empty order |
| Orders.RenderOrderIsJoin | main.py:65-68 | the order rendering is the join of the order's lines |
| Orders.RenderOrderLines | main.py:65-68 | when names and descriptions hold no newline: read line by line, the rendering is one line per item (or one empty line for an empty order), then the total line |
| Orders.RenderEmptyOrder | main.py:65-68 | an empty order renders as a newline and "Total do pedido: R$0.00" |
| Orders.Order.constructor | main.py:56-57 | a new order has no items |
| Orders.Order.AddItem | main.py:59-60 | the item is appended after the unchanged earlier items, and the total grows by exactly its charged price |
| Orders.Order.Clear | main.py:70-71 | afterwards the order has no items, a total of 0, and the empty rendering |
| Restaurants.KindOfTag | main.py:105-113 | a tag selects a kind exactly when it is "Bebida", "Comida" or "Sobremesa", and the kind selected is the one whose tag was given |
| Restaurants.ItemOfRecord | main.py:104-116 | a record becomes an item exactly when its tag is known, and that item written back as a record gives the same record |
| Restaurants.TagsMatchKinds | main.py:105-115 | a tag selects a kind exactly when it is that kind's tag ("Bebida", "Comida", "Sobremesa") |
| Restaurants.Parsed | main.py:104-116 | loading never produces more items than there are records |
| Restaurants.ParsedConcat | main.py:104-116 | records are handled one after another in file order: loading a concatenation concatenates the results |
| Restaurants.ParsedSkipsUnknown | main.py:105-116 | a record with any other tag contributes nothing, wherever it stands |
| Restaurants.ParsedKnownTags | main.py:104-116 | records whose tags are all known become exactly as many items, each with its record's kind, name, price and description |
| Restaurants.RecordsOf | main.py:104-116 | one record per menu item, carrying its tag, name, price and description |
| Restaurants.LoadRecordsOfMenu | main.py:104-116 | loading the records of a menu gives that menu back |
| Restaurants.Snapshot | main.py:92-95 | one display line per item, and an empty order gives no lines and total 0; SnapshotMatchesOrder ties it to the order's own total and lines |
| Restaurants.SavedRecords | main.py:91-97 | one record per stored order |
| Restaurants.SavedRecordAt | main.py:91-97 | record i holds the short display lines and the total of stored order i, as that order object is when saved |
| Restaurants.SavedRecordsAll | main.py:91-97 | every record i is made from stored order i |
| Restaurants.SavedRecordsAppend | main.py:91-97 | storing one more order adds its record at the end |
| Restaurants.SnapshotMatchesOrder | main.py:92-95 | a record lists one line per item and the total that the order reports |
| Restaurants.MenuLines | main.py:84 | line i of the listing is the number i + 1, ". ", and the full display line of entry i |
| Restaurants.MenuListing | main.py:83-84 | an empty menu lists nothing; otherwise the listing starts with "1. " and entry 1's full line, and ends with the number of entries, ". " and the last entry's full line |
| Restaurants.MenuListingLines | main.py:84 | when names and descriptions hold no newline: read line by line, a non-empty listing has one numbered line per entry, in menu order |
| Restaurants.Restaurant.constructor | main.py:76-78 | a new restaurant has an empty menu and no orders |
| Restaurants.Restaurant.AddToMenu | main.py:80-81 | the item is appended to the menu after the unchanged earlier entries; the orders are untouched |
| Restaurants.Restaurant.PlaceOrder | main.py:86-87 | the order object itself, not a copy, is appended to the stored orders |
| Restaurants.Restaurant.PlaceOrderCopy | main.py:86-87 | a fresh copy holding the same items is appended instead (the corrected form) |
| Restaurants.Restaurant.LoadMenu | main.py:100-118 | a missing file leaves the menu as it was; otherwise the parsed items are appended after the unchanged menu; the orders are untouched |
| Session.Select | main.py:159-160 | a choice is accepted exactly when it is all digits and its value n satisfies 1 <= n <= the menu size, and it then selects menu[n - 1] |
| Session.SelectListedNumber | main.py:159-160 | typing the number k + 1, which the tables of options 1 and 2 (main.py:147-148, 155-156) and the listing show for entry k, selects that entry |
| Session.SelectRejectsOutOfRange | main.py:159-164 | 0 and numbers beyond the menu size are rejected |
| Session.SelectLeadingZero | main.py:159 | "0" followed by a number selects the same entry as the number |
| Session.SelectRejectsNonDigits | main.py:159 | empty text, a sign, a space or a decimal point is rejected |
| Session.AddChoice | main.py:158-164 | an accepted choice appends the selected entry to the order; a rejected one leaves the order unchanged |
| Session.FinalizeOrder | main.py:168-173 | the saved records are the earlier stored orders plus this order as it was; afterwards the order is empty, and so is every stored entry that is this same object |
| Session.FinalizeOrderCopied | main.py:168-173 | with a stored copy, the saved records are the same, and emptying the live order leaves them unchanged |
| Session.SingleItemTotals | main.py:62-63 | an order of one Coca-Cola totals 5.50; an order of one X-salada totals 40.00 |
| Session.TwoOrdersAsWritten | main.py:168-173 | as written, finalizing a Coca-Cola order and then an X-salada order saves the X-salada order twice, and the first order is lost |
| Session.TwoOrdersCopied | main.py:168-173 | with the copy, the second save holds both orders, in order, with totals 5.50 and 40.00 |

## Findings

| source | as written | input that shows it | evidently intended | confidence | as-written member | corrected member |
|---|---|---|---|---|---|---|
| main.py:170-173 | `realizar_pedido` stores the live order object. `limpar_pedido` then empties it, and the driver fills the same object again. Every stored entry is that one object, so each save writes the current order once per finalize. | Finalize an order of one Coca-Cola, then an order of one X-salada. The second save holds two X-salada records with total 40.00 each, and the Coca-Cola order is gone. | Each finalized order is saved as it was when finalized: [Coca-Cola 5.50, X-salada 40.00]. | high; not executed | Session.TwoOrdersAsWritten | Session.FinalizeOrderCopied |

`Session.FinalizeOrder` models option 4 as written. Its contract states the
consequence for any session: after finalizing, every stored entry that is the
live order records an empty order. `Restaurants.Restaurant.PlaceOrderCopy`
and `Session.FinalizeOrderCopied` store a fresh copy instead, and
`Session.TwoOrdersCopied` shows that both orders are then kept. The model keeps
the as-written `PlaceOrder` because that is what the program does.

## Left out

- Files: opening, reading and writing files and the JSON encoding are not
  modelled. `carregar_menu` takes the parsed records, with `None` for a missing
  file. `salvar_pedidos` returns its records instead of writing them. Its
  default file names are not modelled.
- Console output: the "file not found" notice, the "added" and "invalid"
  messages, and the console tables of options 1 and 2 (main.py:143-156) are
  not modelled. The interactive loop itself (main.py:134-178) is not modelled
  either. Only the two state-changing steps of the loop are modelled.
- Floating point: prices are exact reals. Python computes `12.0 * 1.1` (the
  seed beer) as 13.200000000000001, so totals written to the orders file can
  differ from the model in the last digits. `5.0 * 1.1` happens to be exactly
  5.5 in binary floating point as well.
- Text.FormatPrice: rounds half up on the exact value, while Python's `:.2f`
  rounds the binary float half to even. Ties such as 0.125 can differ
  ("0.13" here, "0.12" in Python).
- Malformed menu records: a record without `tipo` makes `carregar_menu`
  raise a `KeyError` (main.py:105), and so does a record with a known tag
  that lacks `nome`, `preco` or `descricao` (main.py:107, 111, 115). A record
  with an unknown tag is skipped whatever fields it lacks. A price that is
  not a number is stored when the menu loads; the program raises later,
  when it formats that price (main.py:15, 17, 148, 156) or multiplies or
  sums it (main.py:39, 63). The model assumes every record has all four
  fields and a numeric price; for an unknown tag the other fields are never
  read, so that assumption loses nothing there.
- Session.Select: rejects every choice that is not made of ASCII digits,
  and parses every ASCII digit string, however long. The program differs in two
  ways. Python's `isdigit` also accepts other Unicode digits: `int` converts
  some of them (such as Arabic-Indic digits), and for others (such as "²")
  it raises an uncaught `ValueError` at main.py:159, so the program stops.
  A digit string of more than 4300 digits (leading zeros included) also
  makes `int` raise that error under Python's default integer-string limit,
  and the program stops. The model returns `None` for all of these.
- Session.AddChoice: on the inputs above that make the program stop, the
  model reports the choice as rejected and leaves the order unchanged. The
  model has no outcome for the program stopping.
- Session.SelectLeadingZero: for a digit string of exactly 4300 digits,
  `int` converts the string but raises on the same string with a leading
  zero added, so the program stops on the longer one; the lemma states that
  both select the same entry.
- The hard-coded starting menu (main.py:126-130) is data, not logic. Two of
  its entries are used in the scenario lemmas.
- The read-only properties `nome`, `preco` and `descricao` are the datatype's
  fields.
- `Order.Total`, `Order.Render`, `Restaurant.RenderMenu` and
  `Restaurant.SaveOrders` read the object and call the module-level functions
  `SumPrices`, `RenderOrder`, `MenuListing` and `SavedRecords`. What they
  promise is stated by the lemmas about those functions.
- Saving the same orders twice gives the same records because
  `SavedRecords` is a function. No separate lemma states it.
