/**
 * The cart as the page script holds it: one object whose line sequence the
 * mutators update in place, beside a read-only catalog standing in for
 * PRODUCTS. Each mutator and the click handler are proved against the matching
 * function of CartModel; the end of checkout states its new cart directly. Every
 * method keeps the cart invariant whenever it held before.
 */
module CartStore {
  import opened CartModel

  /** How the order e-mail dispatch ended: the success or the failure continuation. */
  datatype Dispatch = Sent | Failed

  class Store {
    /** The cart's line items in display order. */
    var lines: seq<Line>
    /** The product catalog the cart adds from; the store never changes it. */
    const catalog: seq<Product>

    ghost predicate Valid()
      reads this
    {
      CartModel.Valid(lines)
    }

    /** The cart as loaded at start-up, over the catalog of the page. */
    constructor (stored: seq<Line>, products: seq<Product>)
      ensures lines == stored && catalog == products
    {
      lines := stored;
      catalog := products;
    }

    /** `addToCart`: bump the quantity of the line with `id`, or push a snapshot of the product. */
    method AddToCart(id: string)
      modifies this
      ensures lines == Added(old(lines), catalog, id)
      ensures old(Valid()) ==> Valid()
    {
      ghost var before := lines;
      var found := LineIndex(lines, id);
      if found.Some? {
        var i := found.value;
        lines := lines[i := lines[i].(qty := lines[i].qty + 1)];
      } else {
        var p := ProductIndex(catalog, id);
        if p.Some? {
          var product := catalog[p.value];
          lines := lines + [Line(product.id, product.title, product.price, 1)];
        }
      }
      AddedKeepsValid(before, catalog, id);
    }

    /** `removeFromCart`: replace the lines by those carrying another id. */
    method RemoveFromCart(id: string)
      modifies this
      ensures lines == Removed(old(lines), id)
      ensures old(Valid()) ==> Valid()
    {
      RemovedKeepsValid(lines, id);
      lines := Removed(lines, id);
    }

    /** `changeQty`: add `delta` to the line with `id`, then drop it if its quantity is no longer positive. */
    method ChangeQty(id: string, delta: int)
      modifies this
      ensures lines == QtyChanged(old(lines), id, delta)
      ensures old(Valid()) ==> Valid()
    {
      ghost var before := lines;
      QtyChangedKeepsValid(before, id, delta);
      var found := LineIndex(lines, id);
      if found.None? {
        return;
      }
      var i := found.value;
      var updated := lines[i].(qty := lines[i].qty + delta);
      lines := lines[i := updated];
      if updated.qty <= 0 {
        RemovedIgnoresUpdate(before, id, i, updated);
        RemoveFromCart(id);
      }
    }

    /** The delegated click handler: route one command to its mutator. */
    method Handle(cmd: Command)
      modifies this
      ensures lines == Apply(old(lines), catalog, cmd)
      ensures old(Valid()) ==> Valid()
    {
      match cmd
      case AddItem(id) => AddToCart(id);
      case RemoveItem(id) => RemoveFromCart(id);
      case StepQty(id, delta) => ChangeQty(id, delta);
    }

    /** The end of checkout: the success continuation empties the cart, the failure one leaves it alone. */
    method FinishCheckout(outcome: Dispatch)
      modifies this
      ensures outcome == Sent ==> lines == []
      ensures outcome == Failed ==> lines == old(lines)
      ensures old(Valid()) ==> Valid()
    {
      if outcome == Sent {
        lines := [];
      }
    }
  }
}
