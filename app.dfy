/**
 * The store's single Vue instance. Its data fields become the fields of
 * `TechnoStore`; the browser state its watchers write (the `carrinho`
 * local-storage slot, the page title, the URL fragment and the pushed
 * history entries) become fields too. Vue's change detection is replaced by
 * explicit calls: every cart mutation ends with `CarrinhoWatcher`, and every
 * reassignment of `produto` (a fetched product, or `false` on close) ends
 * with `ProdutoWatcher`. In the source `produto` is a mutable object, and
 * `addItem` and `compareStorage` lower its `estoque` in place, which Vue's
 * shallow watcher does not see. Here `produto` is a value: those two methods
 * assign it a copy with the lower stock and do not run the watcher.
 */
module App {
  import opened Wrappers
  import opened Cart
  import opened Navigation
  import opened Persistence

  /** A DOM element, compared by identity as `===` compares event targets. */
  type Element = nat

  /** The two elements of a click event that the close handlers compare. */
  datatype ClickEvent = ClickEvent(target: Element, currentTarget: Element)

  /** What `checkLocalStorage` found in the `carrinho` slot. */
  datatype Restore =
    | NothingStored  // the slot is absent or empty: the cart is left as it is
    | Restored       // the slot held a cart, which replaced the cart wholesale
    | Malformed      // the slot held text that does not parse: `JSON.parse` throws, the cart is left as it is

  /** The message `mensagemAlerta` starts with. */
  const InitialAlert: string := "Item adicionado"

  /** What `addItem` appends to the product's name to form the alert. */
  const AddedSuffix: string := " adicionado ao carrinho"

  class TechnoStore {
    var produtos: seq<Product>
    var produto: Selection
    var carrinho: seq<LineItem>
    var carrinhoAtivo: bool
    var mensagemAlerta: string
    var alertaAtivo: bool

    /** `window.localStorage.carrinho`, the slot under the key "carrinho": absent until the first save. */
    var storage: Option<string>
    /** `document.title`. */
    var title: string
    /** The fragment of the page's URL, without its `#`. */
    var fragment: string
    /** The URLs pushed with `history.pushState`, oldest first. */
    var history: seq<string>

    /**
     * The open product's remaining stock plus the cart lines that reserve it.
     * Right after a product with fetched stock S is opened this is S.
     */
    ghost function StockPlusReserved(): int
      reads this
      requires produto.Open?
    {
      produto.product.estoque + Count(carrinho, produto.product.id)
    }

    /** The instance as the page creates it, over the browser's current storage slot, fragment and title. */
    constructor (stored: Option<string>, initialFragment: string, initialTitle: string)
      ensures produtos == [] && produto == Closed && carrinho == [] && !carrinhoAtivo
      ensures mensagemAlerta == InitialAlert && !alertaAtivo
      ensures storage == stored && fragment == initialFragment && title == initialTitle && history == []
    {
      produtos := [];
      produto := Closed;
      carrinho := [];
      carrinhoAtivo := false;
      mensagemAlerta := InitialAlert;
      alertaAtivo := false;
      storage := stored;
      fragment := initialFragment;
      title := initialTitle;
      history := [];
    }

    /** The computed `carrinhoTotal`: the prices of the cart's lines added up in order. */
    method CarrinhoTotal() returns (total: int)
      ensures total == Sum(carrinho)
    {
      total := 0;
      if |carrinho| > 0 {
        var i := 0;
        while i < |carrinho|
          invariant 0 <= i <= |carrinho|
          invariant total == Sum(carrinho[..i])
        {
          assert carrinho[..i + 1][..i] == carrinho[..i];
          total := total + carrinho[i].preco;
          i := i + 1;
        }
        assert carrinho[..i] == carrinho;
      }
    }

    /** The effect of a successful `fetchProdutos`: the catalog list is replaced, not merged. */
    method FetchProdutosResolved(list: seq<Product>)
      modifies this`produtos
      ensures produtos == list
    {
      produtos := list;
    }

    /**
     * The effect of a successful `fetchProduto`: the fetched record becomes
     * `produto`, and the `produto` watcher runs, which writes the title and the
     * fragment and then takes the cart's reserved units off the fetched stock.
     */
    method FetchProdutoResolved(p: Product)
      modifies this`produto, this`title, this`fragment, this`history
      ensures produto == Open(p.(estoque := p.estoque - Count(carrinho, p.id)))
      ensures StockPlusReserved() == p.estoque
      ensures title == Title(Open(p)) && fragment == p.id
      ensures history == old(history) + ["#" + p.id]
    {
      produto := Open(p);
      ProdutoWatcher();
    }

    /** `closeModal`: a click on the overlay itself, not on its content, closes the product. */
    method CloseModal(e: ClickEvent)
      modifies this`produto, this`title, this`fragment, this`history
      ensures e.target != e.currentTarget || old(produto).Closed? ==>
        produto == old(produto) && title == old(title) && fragment == old(fragment) && history == old(history)
      ensures e.target == e.currentTarget && old(produto).Open? ==>
        produto == Closed && title == FallbackTitle && fragment == "" && history == old(history) + ["#"]
    {
      if e.target == e.currentTarget {
        var was := produto;
        produto := Closed;
        // Vue runs a watcher only when the value actually changes.
        if was != Closed {
          ProdutoWatcher();
          assert PushedUrl(Closed) == "#";
        }
      }
    }

    /** `closeCartModal`: a click on the cart overlay itself hides the cart. */
    method CloseCartModal(e: ClickEvent)
      modifies this`carrinhoAtivo
      ensures carrinhoAtivo == (old(carrinhoAtivo) && e.target != e.currentTarget)
    {
      if e.target == e.currentTarget {
        carrinhoAtivo := false;
      }
    }

    /**
     * `addItem`: one unit of the open product's stock goes, a snapshot of its
     * id, name and price is appended to the cart, the alert announces it, and
     * the cart is saved.
     */
    method AddItem()
      requires produto.Open?
      modifies this`produto, this`carrinho, this`mensagemAlerta, this`alertaAtivo, this`storage
      ensures produto == Open(old(produto.product).(estoque := old(produto.product.estoque) - 1))
      ensures carrinho == old(carrinho) + [Snapshot(old(produto.product))]
      ensures mensagemAlerta == old(produto.product.nome) + AddedSuffix && alertaAtivo
      ensures storage == Some(Serialize(carrinho))
      ensures StockPlusReserved() == old(StockPlusReserved())
      ensures Sum(carrinho) == old(Sum(carrinho)) + old(produto.product.preco)
    {
      var p := produto.product;
      produto := Open(p.(estoque := p.estoque - 1));
      var item := Snapshot(produto.product);
      carrinho := carrinho + [item];
      Alerta(item.nome + AddedSuffix);
      CarrinhoWatcher();
      AddKeepsStockPlusReserved(p, old(carrinho));
      SumAppend(old(carrinho), item);
    }

    /**
     * `removeItem`: the line at `index` leaves the cart, the others keep their
     * order, and the cart is saved. No stock is given back, so a removed line
     * of the open product lowers its stock plus reserved by one.
     */
    method RemoveItem(index: nat)
      requires index < |carrinho|
      modifies this`carrinho, this`storage
      ensures carrinho == RemoveAt(old(carrinho), index)
      ensures storage == Some(Serialize(carrinho))
      ensures produto.Open? ==>
        StockPlusReserved() == old(StockPlusReserved()) - (if old(carrinho[index].id) == produto.product.id then 1 else 0)
      ensures Sum(carrinho) == old(Sum(carrinho)) - old(carrinho[index].preco)
    {
      if produto.Open? {
        CountRemoveAt(carrinho, index, produto.product.id);
      }
      SumRemoveAt(carrinho, index);
      carrinho := RemoveAt(carrinho, index);
      CarrinhoWatcher();
    }

    /**
     * `checkLocalStorage`: a non-empty `carrinho` slot replaces the cart
     * wholesale; the save that follows writes the very same text back.
     */
    method CheckLocalStorage() returns (outcome: Restore)
      modifies this`carrinho, this`storage
      ensures storage == old(storage)
      ensures old(storage).None? || old(storage) == Some("") ==> outcome == NothingStored && carrinho == old(carrinho)
      ensures old(storage).Some? && old(storage) != Some("") ==>
        match Deserialize(old(storage).value)
        case Some(saved) => outcome == Restored && carrinho == saved
        case None => outcome == Malformed && carrinho == old(carrinho)
    {
      if storage.Some? && storage.value != "" {
        var text := storage.value;
        var saved := Deserialize(text);
        if saved.Some? {
          carrinho := saved.value;
          CarrinhoWatcher();
          DeserializeCanonical(text);
          outcome := Restored;
        } else {
          outcome := Malformed;
        }
      } else {
        outcome := NothingStored;
      }
    }

    /**
     * `compareStorage`: the open product's stock loses one unit for every
     * cart line that carries its id; the cart itself is not touched.
     */
    method CompareStorage()
      requires produto.Open?
      modifies this`produto
      ensures produto == Open(old(produto.product).(estoque := old(produto.product.estoque) - Count(carrinho, old(produto.product.id))))
    {
      var items := Count(carrinho, produto.product.id);
      produto := Open(produto.product.(estoque := produto.product.estoque - items));
    }

    /** The synchronous part of `alerta`: the message is shown and the alert is active. */
    method Alerta(mensagem: string)
      modifies this`mensagemAlerta, this`alertaAtivo
      ensures mensagemAlerta == mensagem && alertaAtivo
    {
      mensagemAlerta := mensagem;
      alertaAtivo := true;
    }

    /**
     * `router`: reads `location.hash` and gives the product id to fetch, if
     * any: nothing for an empty fragment, otherwise the fragment itself.
     */
    method Router() returns (request: Option<string>)
      ensures request.None? <==> fragment == ""
      ensures fragment != "" ==> request == Some(fragment)
    {
      var hash := LocationHash(fragment);
      request := ParseHash(hash);
    }

    /**
     * The `created` hook: the catalog fetch is issued (its effect is
     * `FetchProdutosResolved`), the router asks for the product named by the
     * fragment, and the saved cart is restored.
     */
    method Created() returns (request: Option<string>, outcome: Restore)
      modifies this`carrinho, this`storage
      ensures fragment != "" <==> request == Some(fragment)
      ensures request.None? <==> fragment == ""
      ensures storage == old(storage)
      ensures old(storage).None? || old(storage) == Some("") ==> outcome == NothingStored && carrinho == old(carrinho)
      ensures old(storage).Some? && old(storage) != Some("") ==>
        match Deserialize(old(storage).value)
        case Some(saved) => outcome == Restored && carrinho == saved
        case None => outcome == Malformed && carrinho == old(carrinho)
    {
      request := Router();
      outcome := CheckLocalStorage();
    }

    /** The `carrinho` watcher: the whole cart is written to the `carrinho` slot. */
    method CarrinhoWatcher()
      modifies this`storage
      ensures storage == Some(Serialize(carrinho))
    {
      storage := Some(Serialize(carrinho));
    }

    /**
     * The `produto` watcher: the title becomes the product's name (or the
     * fallback), the URL `#` + id is pushed, and when a product is open its
     * stock is reconciled with the cart.
     */
    method ProdutoWatcher()
      modifies this`produto, this`title, this`fragment, this`history
      ensures title == Title(old(produto)) && fragment == HashTarget(old(produto))
      ensures history == old(history) + [PushedUrl(old(produto))]
      ensures old(produto).Closed? ==> produto == Closed
      ensures old(produto).Open? ==>
        produto == Open(old(produto.product).(estoque := old(produto.product.estoque) - Count(carrinho, old(produto.product.id))))
    {
      title := Title(produto);
      var hash := HashTarget(produto);
      history := history + [PushedUrl(produto)];
      fragment := hash;
      if produto.Open? {
        CompareStorage();
      }
    }
  }
}
