/**
 * The cart ledger of the store: products, the line items the cart holds,
 * and the values derived from a cart (its total and how many of its items
 * belong to one product).
 */
module Cart {

  /** A product record as the catalog returns it. Prices are in cents. */
  datatype Product = Product(id: string, nome: string, preco: int, estoque: int)

  /** A cart line: a snapshot of the product's id, name and price at the moment it was added. */
  datatype LineItem = LineItem(id: string, nome: string, preco: int)

  /** The `produto` field: `false` while no product is open, otherwise the open product. */
  datatype Selection = Closed | Open(product: Product)

  /** The `{ id, nome, preco }` destructuring of the open product. */
  function Snapshot(p: Product): (item: LineItem)
    ensures item.id == p.id && item.nome == p.nome && item.preco == p.preco
  {
    LineItem(p.id, p.nome, p.preco)
  }

  /** The sum of `preco` over the cart, in order. */
  function Sum(cart: seq<LineItem>): int
  {
    if cart == [] then 0 else Sum(cart[..|cart| - 1]) + cart[|cart| - 1].preco
  }

  /** How many line items of the cart carry the given id. */
  function Count(cart: seq<LineItem>, id: string): (n: nat)
    ensures n <= |cart|
    ensures n == 0 <==> forall k :: 0 <= k < |cart| ==> cart[k].id != id
    ensures n == |cart| <==> forall k :: 0 <= k < |cart| ==> cart[k].id == id
  {
    if cart == [] then 0
    else Count(cart[..|cart| - 1], id) + (if cart[|cart| - 1].id == id then 1 else 0)
  }

  /** The cart after `splice(index, 1)` at a valid index. */
  function RemoveAt(cart: seq<LineItem>, index: nat): (r: seq<LineItem>)
    requires index < |cart|
    ensures |r| == |cart| - 1
    ensures forall k :: 0 <= k < index ==> r[k] == cart[k]
    ensures forall k :: index <= k < |r| ==> r[k] == cart[k + 1]
  {
    cart[..index] + cart[index + 1..]
  }

  /** The total of two carts laid end to end is the sum of their totals. */
  lemma {:induction false} SumConcat(a: seq<LineItem>, b: seq<LineItem>)
    ensures Sum(a + b) == Sum(a) + Sum(b)
  {
    if b != [] {
      var b' := b[..|b| - 1];
      assert (a + b)[..|a + b| - 1] == a + b';
      SumConcat(a, b');
    } else {
      assert a + b == a;
    }
  }

  /** Appending one item adds exactly its price to the total. */
  lemma SumAppend(cart: seq<LineItem>, item: LineItem)
    ensures Sum(cart + [item]) == Sum(cart) + item.preco
  {
  }

  /** Removing the item at a valid index takes exactly its price off the total. */
  lemma {:induction false} SumRemoveAt(cart: seq<LineItem>, index: nat)
    requires index < |cart|
    ensures Sum(RemoveAt(cart, index)) == Sum(cart) - cart[index].preco
  {
    var before, item, after := cart[..index], cart[index], cart[index + 1..];
    assert cart[index..] == [item] + after;
    assert cart == before + cart[index..];
    assert cart == (before + [item]) + after;
    SumConcat(before + [item], after);
    SumAppend(before, item);
    assert Sum(cart) == Sum(before) + item.preco + Sum(after);
    var rest := RemoveAt(cart, index);
    assert rest == before + after;
    SumConcat(before, after);
  }

  /** The count over two carts laid end to end is the sum of their counts. */
  lemma {:induction false} CountConcat(a: seq<LineItem>, b: seq<LineItem>, id: string)
    ensures Count(a + b, id) == Count(a, id) + Count(b, id)
  {
    if b != [] {
      var b' := b[..|b| - 1];
      assert (a + b)[..|a + b| - 1] == a + b';
      CountConcat(a, b', id);
    } else {
      assert a + b == a;
    }
  }

  /** Appending a snapshot of `p` raises the count of `p.id` by exactly one and no other count. */
  lemma CountAppend(cart: seq<LineItem>, item: LineItem, id: string)
    ensures Count(cart + [item], id) == Count(cart, id) + (if item.id == id then 1 else 0)
  {
  }

  /** Removing the item at a valid index lowers the count of its own id by one and no other count. */
  lemma {:induction false} CountRemoveAt(cart: seq<LineItem>, index: nat, id: string)
    requires index < |cart|
    ensures Count(RemoveAt(cart, index), id) == Count(cart, id) - (if cart[index].id == id then 1 else 0)
  {
    var before, item, after := cart[..index], cart[index], cart[index + 1..];
    assert cart[index..] == [item] + after;
    assert cart == before + cart[index..];
    assert cart == (before + [item]) + after;
    assert RemoveAt(cart, index) == before + after;
    CountConcat(before + [item], after, id);
    CountAppend(before, item, id);
    CountConcat(before, after, id);
  }

  /**
   * The reconciled stock of `p` plus its reserved count in the cart is the
   * same before and after one `addItem`: the stock loses one unit and the
   * cart gains one line with `p`'s id.
   */
  lemma AddKeepsStockPlusReserved(p: Product, cart: seq<LineItem>)
    ensures (p.estoque - 1) + Count(cart + [Snapshot(p)], p.id) == p.estoque + Count(cart, p.id)
  {
  }

}
