# TechnoStore cart and selection state, in Dafny

A model of the cart and product-selection logic of the TechnoStore catalog
page. The page is one Vue instance (`app.js`). It lists products and opens one
product in an overlay. It keeps a cart of `{id, nome, preco}` snapshots and
saves that cart to the browser's local storage under the key `carrinho`. It
also keeps the page title and the URL fragment in step with the open product.

The model has five modules:

- `Wrappers` (`wrappers.dfy`): the `Option` type.
- `Cart` (`cart.dfy`): products, cart lines and the open-product selection.
  It defines the cart total (`Sum`), the count of lines carrying one id
  (`Count`, the filter inside `compareStorage`) and `splice(i, 1)`
  (`RemoveAt`), with lemmas on how they change when one line is appended
  or removed.
- `Navigation` (`navigation.dfy`): the title and fragment derived from
  `produto`, the browser's `location.hash` rule, and the `router`'s
  first-`#` removal. It proves that the fragment written for a product
  with a non-empty id parses back to that id, for ids the URL parser
  leaves as they are (see "Left out").
- `Persistence` (`persistence.dfy`): the text written to the `carrinho`
  slot and the parser that reads it back. The pair is proved inverse in
  both directions. Restoring a saved cart gives the same cart, and any text
  that restores is exactly the text written for the cart it restores.
- `App` (`app.dfy`): class `TechnoStore`. Its fields are the Vue data
  fields (`produtos`, `produto`, `carrinho`, `carrinhoAtivo`,
  `mensagemAlerta`, `alertaAtivo`) and the browser state the watchers
  write: the storage slot, `document.title`, the URL fragment and the list
  of pushed URLs. Vue's watchers become explicit calls. Every cart
  mutation ends with `CarrinhoWatcher`, which saves the whole cart. Only a
  reassignment of `produto` (a fetched product, or closing the overlay)
  ends with `ProdutoWatcher`, which writes the title and fragment and then
  runs `CompareStorage`. In the source `produto` is a mutable object, and
  `addItem` and `compareStorage` lower its `estoque` in place, which Vue's
  shallow watcher does not see. The model keeps `produto` as a value: those
  two methods assign it a copy with the lower stock and do not run
  `ProdutoWatcher`.

The main invariant is `StockPlusReserved`: the open product's `estoque`
plus the number of cart lines with its id. Opening a product with fetched
stock S makes it S. `AddItem` keeps it. `RemoveItem` lowers it by one for
each removed line of that product, because the source gives no stock back.

Prices and stock are integers (prices in cents). Ids and names are strings.

Three behaviours of the code worth noting:

- Navigation uses `history.pushState`, so every product change adds a history entry. It is not a replace-style update.
- A malformed `carrinho` slot makes `JSON.parse` throw inside `created`. The cart stays as it was. The model reports this as `Malformed` rather than silently treating it as absent.
- Removing a line never restores stock, and nothing keeps `estoque` at or above zero.

## Model

| member | source | states |
|---|---|---|
| `App.TechnoStore.constructor` | app.js:3-10 | the initial data: no products, `produto` false, empty cart, cart overlay closed, alert "Item adicionado" inactive |
| `App.TechnoStore.CarrinhoTotal` | app.js:21-30 | the computed total is the sum of `preco` over the cart in order, 0 for an empty cart |
| `App.TechnoStore.FetchProdutosResolved` | app.js:34-40 | a successful catalog fetch replaces the product list wholesale |
| `App.TechnoStore.FetchProdutoResolved` | app.js:43-49 | a fetched product becomes `produto` with its stock lowered by its cart lines, so stock plus reserved equals the fetched stock; title and fragment follow it and one URL is pushed |
| `App.TechnoStore.CloseModal` | app.js:61-63 | only a click whose target is the overlay itself closes the product; closing an open product resets title to "Techno" and fragment to empty and pushes `#`; closing when nothing is open changes nothing |
| `App.TechnoStore.CloseCartModal` | app.js:66-68 | the cart overlay closes exactly when target and currentTarget are the same element |
| `App.TechnoStore.AddItem` | app.js:71-76 | stock drops by exactly 1, one `{id, nome, preco}` snapshot is appended after the unchanged earlier lines, the alert becomes `nome + " adicionado ao carrinho"` and active, the cart is saved, stock plus reserved is unchanged and the total grows by the price |
| `App.TechnoStore.RemoveItem` | app.js:79-81 | the line at a valid index leaves the cart, the rest keep their order, the cart is saved, no stock is restored (stock plus reserved drops by one for a line of the open product) and the total drops by the removed price |
| `App.TechnoStore.CheckLocalStorage` | app.js:84-88 | an absent or empty slot leaves the cart; a slot holding a saved cart replaces the cart wholesale with it; unparsable text leaves the cart; the slot's text is the same afterwards |
| `App.TechnoStore.CompareStorage` | app.js:91-97 | the open product's stock loses exactly the number of cart lines with its id; the cart is untouched |
| `App.TechnoStore.Alerta` | app.js:100-102 | the message is set and the alert is active |
| `App.TechnoStore.Router` | app.js:109-114 | an empty hash requests no product; otherwise the requested id is the fragment without its `#` |
| `App.TechnoStore.Created` | app.js:131-135 | startup requests the product named by a non-empty fragment; an absent or empty slot leaves the cart, a slot holding a saved cart replaces the cart with it, unparsable text leaves the cart; the slot's text is the same afterwards |
| `App.TechnoStore.ProdutoWatcher` | app.js:118-126 | title is the name or "Techno", fragment is the id or empty, `#` + id is pushed, and stock reconciliation runs only when a product is open |
| `App.TechnoStore.CarrinhoWatcher` | app.js:127-129 | the whole cart is written to the `carrinho` slot |
| `Cart.Snapshot` | app.js:73 | the `{ id, nome, preco }` line taken from the open product carries its id, name and price, and not its stock |
| `Cart.Count` | app.js:92-96 | the filtered count is at most the cart length, is 0 exactly when no line has the id, and equals the length exactly when every line has it |
| `Cart.RemoveAt` | app.js:80 | `splice(index, 1)` shortens the cart by one, keeps the lines before the index and shifts the lines after it down by one |
| `Cart.SumConcat` | app.js:21-30 | the total of two carts laid end to end is the sum of their totals |
| `Cart.SumAppend` | app.js:74 | pushing a line adds exactly its price to the total |
| `Cart.SumRemoveAt` | app.js:80 | removing a line takes exactly its price off the total |
| `Cart.CountConcat` | app.js:92-95 | the count over two carts laid end to end is the sum of their counts |
| `Cart.CountAppend` | app.js:74 | pushing a line raises the count of its own id by one and leaves every other count |
| `Cart.CountRemoveAt` | app.js:80 | removing a line lowers the count of its own id by one and leaves every other count, so with no stock given back a removed line of the open product lowers stock plus reserved by one |
| `Cart.AddKeepsStockPlusReserved` | app.js:72-74 | one unit off the stock and one more line with the id leave stock plus reserved unchanged |
| `Navigation.Title` | app.js:119 | the title is the open product's name, or "Techno" when nothing is open or the name is empty; never empty |
| `Navigation.HashTarget` | app.js:120 | `produto.id`, falling back to `""`, is the open product's id, and is empty exactly when nothing is open or the id is empty |
| `Navigation.PushedUrl` | app.js:120-121 | the pushed URL is `#` followed by the id, or `#` alone when nothing is open |
| `Navigation.LocationHash` | app.js:110 | `location.hash` is empty exactly when the fragment is, and is otherwise `#` and the fragment |
| `Navigation.FirstIndex` | app.js:112 | the position of the first `#`: every earlier character differs, and it holds `#` unless it is the end |
| `Navigation.RemoveFirst` | app.js:112 | `replace("#", "")` removes exactly the first `#` and leaves a text without one unchanged |
| `Navigation.ParseHash` | app.js:109-114 | an empty hash gives no request; a hash starting with `#` requests the text after it |
| `Navigation.RouterInvertsWatcher` | app.js:118-121 | the fragment written for an open product parses back to its id when the id is non-empty, and to no request when nothing is open |
| `Persistence.StringRoundTrip` | app.js:128 | a written string literal reads back to the same text and leaves what follows |
| `Persistence.StringCanonical` | app.js:86 | every string literal the reader accepts is the one the writer emits for its text |
| `Persistence.NatDigitsValue` | app.js:128 | the decimal numeral written for a number has that number as its value |
| `Persistence.CanonicalDigits` | app.js:86 | a numeral without leading zeros is the one written for its value |
| `Persistence.IntRoundTrip` | app.js:128 | a written price reads back to the same integer when a non-digit follows |
| `Persistence.IntCanonical` | app.js:86 | every integer the reader accepts is written exactly as the writer writes it |
| `Persistence.ItemRoundTrip` | app.js:128 | a written `{id, nome, preco}` line reads back to the same line and leaves what follows |
| `Persistence.ItemCanonical` | app.js:86 | every line the reader accepts is written exactly as the writer writes it |
| `Persistence.Serialize` | app.js:128 | the saved text is never empty (it starts with `[`), so even an empty cart is restored |
| `Persistence.Deserialize` | app.js:86 | `JSON.parse` of the slot's text: only a text starting with `[` restores, and `[]` restores the empty cart; its inverse relation to `Serialize` is stated by `SerializeRoundTrip` and `DeserializeCanonical` |
| `Persistence.SerializeRoundTrip` | app.js:84-88 | restoring a saved cart gives back the same cart, line for line and in order |
| `Persistence.DeserializeCanonical` | app.js:84-88 | any text that restores is the text saved for the cart it restores, so re-saving writes it back unchanged |

## Left out

- `fetchProdutos`, `fetchProduto` and `openModal` (app.js:34-58) are network fetches plus `window.scrollTo`. Only their effect on success is modelled, as `FetchProdutosResolved` and `FetchProdutoResolved`. Failed fetches, and fetches that finish out of order, are not modelled.
- The `numPreco` filter (app.js:12-17) is locale currency formatting of floating-point numbers.
- The 1500 ms `setTimeout` in `alerta` (app.js:103-105) is a timer callback. Its late firing after a newer alert is a concurrency matter. Only the synchronous message and flag update is modelled.
- Vue's reactive change detection is not modelled. Watchers are called at the end of each mutating method. Vue would run them once per tick, after all the tick's mutations. Because each watcher writes the whole state, the outcome is the same for these operations.
- `Deserialize` accepts only the exact text `Serialize` writes. `JSON.parse` also accepts whitespace, other escapes, exponents and JSON that is not a list of `{id, nome, preco}` lines. The model treats those texts as malformed.
- `Serialize` escapes only `"` and `\`. `JSON.stringify` also escapes control characters, which the model writes as they are.
- Prices are integers (cents), not JavaScript floating-point numbers. Ids are strings, so a numeric id of 0 (falsy in JavaScript) is not modelled.
- Product records carry only `id`, `nome`, `preco` and `estoque`. Any other fields in the fetched data are not part of this model.
- App.TechnoStore.AddItem: requires an open product. With `produto` false the source pushes a line of undefined fields, which is not modelled.
- App.TechnoStore.RemoveItem: requires a valid index. `splice` with a negative index (removes from the end) or an index past the end (removes nothing) is not modelled.
- App.TechnoStore.CompareStorage: requires an open product. Its only caller, the `produto` watcher, calls it only then.
- The index page (templates, the opening of the cart overlay) is not part of this model.
- Ids are assumed URL-safe. `history.pushState` percent-encodes the fragment (spaces, quotes, `<`, `>`, backquotes, non-ASCII characters), so `location.hash` would read such an id back encoded. The model stores the id in the fragment unchanged and does not model that encoding.
