/**
 * The shopping-cart store of the RapidVolt site, as values.
 *
 * A cart is an ordered sequence of line items. Each line refers to a catalog
 * product by id and keeps a snapshot of the product's title and price taken
 * when the line was created. Prices are integer minor units (fils), so the
 * totals below are exact sums.
 *
 * This module holds the specification functions of the three mutators, the
 * two derived sums and the lemmas about them; the object that owns the cart
 * and updates it in place is CartStore.Store.
 */
module CartModel {

  datatype Option<T> = None | Some(value: T)

  /** A catalog entry (an element of PRODUCTS); `desc` plays no part in the cart. */
  datatype Product = Product(id: string, title: string, price: int, desc: string)

  /** A cart line item `{id, title, price, qty}`. */
  datatype Line = Line(id: string, title: string, price: int, qty: int)

  /** Some line of the cart carries `id`. */
  predicate InCart(s: seq<Line>, id: string)
  {
    exists j :: 0 <= j < |s| && s[j].id == id
  }

  /** Some product of the catalog carries `id`. */
  predicate InCatalog(c: seq<Product>, id: string)
  {
    exists k :: 0 <= k < |c| && c[k].id == id
  }

  predicate UniqueIds(s: seq<Line>)
  {
    forall j, k :: 0 <= j < k < |s| ==> s[j].id != s[k].id
  }

  predicate AllPositive(s: seq<Line>)
  {
    forall j :: 0 <= j < |s| ==> s[j].qty >= 1
  }

  /** The cart invariant the mutators keep: ids are unique and every quantity is at least 1. */
  predicate Valid(s: seq<Line>)
  {
    UniqueIds(s) && AllPositive(s)
  }

  // ---------------------------------------------------------------------------
  // Lookups: `cart.find(c => c.id === id)` and `PRODUCTS.find(x => x.id === id)`
  // ---------------------------------------------------------------------------

  /** `find` with the test `key(x) === id`: the first position whose element has key `id`. */
  function FirstIndex<T>(s: seq<T>, key: T -> string, id: string): (r: Option<nat>)
    ensures r.Some? ==> r.value < |s| && key(s[r.value]) == id
    ensures r.Some? ==> forall j :: 0 <= j < r.value ==> key(s[j]) != id
    ensures r.None? <==> forall j :: 0 <= j < |s| ==> key(s[j]) != id
  {
    if s == [] then None
    else if key(s[0]) == id then Some(0)
    else
      match FirstIndex(s[1..], key, id)
      case None =>
        assert forall j :: 1 <= j < |s| ==> s[j] == s[1..][j - 1];
        None
      case Some(k) => Some(k + 1)
  }

  function LineId(l: Line): string
  {
    l.id
  }

  function ProductId(p: Product): string
  {
    p.id
  }

  /** `cart.find`: the position of the first line carrying `id`, or None when there is none. */
  function LineIndex(s: seq<Line>, id: string): (r: Option<nat>)
    ensures r.Some? ==> r.value < |s| && s[r.value].id == id
    ensures r.Some? ==> forall j :: 0 <= j < r.value ==> s[j].id != id
    ensures r.None? <==> !InCart(s, id)
  {
    FirstIndex(s, LineId, id)
  }

  /** `PRODUCTS.find`: the position of the first product carrying `id`, or None when there is none. */
  function ProductIndex(c: seq<Product>, id: string): (r: Option<nat>)
    ensures r.Some? ==> r.value < |c| && c[r.value].id == id
    ensures r.Some? ==> forall k :: 0 <= k < r.value ==> c[k].id != id
    ensures r.None? <==> !InCatalog(c, id)
  {
    FirstIndex(c, ProductId, id)
  }

  /** Line `i` is the first line carrying `id`: the one `cart.find` returns. */
  predicate FirstWith(s: seq<Line>, id: string, i: nat)
  {
    i < |s| && s[i].id == id && forall j :: 0 <= j < i ==> s[j].id != id
  }

  /** The lookup finds exactly the first line carrying the id. */
  lemma LineIndexFirst(s: seq<Line>, id: string, i: nat)
    requires FirstWith(s, id, i)
    ensures LineIndex(s, id) == Some(i)
  {
  }

  /** With unique ids, the first line carrying an id is the only one. */
  lemma LineIndexUnique(s: seq<Line>, id: string, i: nat)
    requires UniqueIds(s) && i < |s| && s[i].id == id
    ensures LineIndex(s, id) == Some(i)
  {
  }

  // ---------------------------------------------------------------------------
  // The mutators, as functions from the old cart to the new one
  // ---------------------------------------------------------------------------

  /**
   * The cart after `addToCart(id)` against catalog `c`: the first line with the
   * id gains one, or a snapshot of the product's id, title and price is pushed
   * with quantity 1. Existing lines never take a new title or price.
   */
  function Added(s: seq<Line>, c: seq<Product>, id: string): (r: seq<Line>)
    ensures |r| == if InCart(s, id) || !InCatalog(c, id) then |s| else |s| + 1
    ensures forall j :: 0 <= j < |s| ==>
      r[j].id == s[j].id && r[j].title == s[j].title && r[j].price == s[j].price
    ensures forall j :: 0 <= j < |s| ==> s[j].qty <= r[j].qty <= s[j].qty + 1
    ensures InCart(r, id) <==> InCart(s, id) || InCatalog(c, id)
  {
    match LineIndex(s, id)
    case Some(i) =>
      var r := s[i := s[i].(qty := s[i].qty + 1)];
      assert r[i].id == id;
      r
    case None =>
      match ProductIndex(c, id)
      case Some(k) =>
        var r := s + [Line(c[k].id, c[k].title, c[k].price, 1)];
        assert r[|s|].id == id;
        r
      case None => s
  }

  /** The cart after `removeFromCart(id)`: a filter keeping the lines with another id. */
  function Removed(s: seq<Line>, id: string): (r: seq<Line>)
    ensures !InCart(r, id)
    ensures |r| <= |s|
    ensures forall j :: 0 <= j < |r| ==> r[j] in s
    ensures forall j :: 0 <= j < |s| && s[j].id != id ==> s[j] in r
  {
    if s == [] then []
    else
      var rest := Removed(s[1..], id);
      assert forall j :: 1 <= j < |s| ==> s[j] == s[1..][j - 1];
      if s[0].id == id then rest else [s[0]] + rest
  }

  /**
   * The cart after `changeQty(id, delta)`. The only line it can make that was
   * not in the old cart is the changed one, and that one has a positive quantity.
   */
  function QtyChanged(s: seq<Line>, id: string, delta: int): (r: seq<Line>)
    ensures |r| <= |s|
    ensures !InCart(s, id) ==> r == s
    ensures forall j :: 0 <= j < |r| && r[j] !in s ==> r[j].id == id && r[j].qty > 0
  {
    match LineIndex(s, id)
    case None => s
    case Some(i) =>
      if s[i].qty + delta > 0 then s[i := s[i].(qty := s[i].qty + delta)]
      else Removed(s, id)
  }

  // ---------------------------------------------------------------------------
  // addToCart
  // ---------------------------------------------------------------------------

  /**
   * Adding an id already in the cart raises the quantity of its first line `i`
   * by one and changes nothing else, whatever the catalog holds.
   */
  lemma AddedExisting(s: seq<Line>, c: seq<Product>, id: string, i: nat)
    requires FirstWith(s, id, i)
    ensures |Added(s, c, id)| == |s|
    ensures Added(s, c, id)[i] == Line(s[i].id, s[i].title, s[i].price, s[i].qty + 1)
    ensures forall j :: 0 <= j < |s| && j != i ==> Added(s, c, id)[j] == s[j]
  {
    LineIndexFirst(s, id, i);
  }

  /** Adding an id absent from the cart appends one snapshot of the first catalog product with it. */
  lemma AddedNew(s: seq<Line>, c: seq<Product>, id: string, k: nat)
    requires !InCart(s, id)
    requires k < |c| && c[k].id == id
    requires forall k' :: 0 <= k' < k ==> c[k'].id != id
    ensures Added(s, c, id) == s + [Line(c[k].id, c[k].title, c[k].price, 1)]
  {
    assert InCatalog(c, id);
  }

  /** Adding an id that is neither in the cart nor in the catalog leaves the cart as it was. */
  lemma AddedUnknown(s: seq<Line>, c: seq<Product>, id: string)
    requires !InCart(s, id) && !InCatalog(c, id)
    ensures Added(s, c, id) == s
  {
  }

  /** Adding an unseen product twice gives one line of quantity 2, not two lines. */
  lemma AddedTwice(s: seq<Line>, c: seq<Product>, id: string, k: nat)
    requires !InCart(s, id)
    requires k < |c| && c[k].id == id
    requires forall k' :: 0 <= k' < k ==> c[k'].id != id
    ensures Added(Added(s, c, id), c, id) == s + [Line(c[k].id, c[k].title, c[k].price, 2)]
  {
    AddedNew(s, c, id, k);
    var l := Line(c[k].id, c[k].title, c[k].price, 1);
    LineIndexFirst(s + [l], id, |s|);
  }

  /** Appending a line whose id is absent keeps ids unique. */
  lemma AddsKeepUnique(s: seq<Line>, l: Line)
    requires UniqueIds(s) && !InCart(s, l.id)
    ensures UniqueIds(s + [l])
  {
    var t := s + [l];
    forall j, k | 0 <= j < k < |t| ensures t[j].id != t[k].id {
      if k == |s| {
        assert t[j] == s[j];
      }
    }
  }

  /** `addToCart` keeps the cart invariant. */
  lemma AddedKeepsValid(s: seq<Line>, c: seq<Product>, id: string)
    ensures Valid(s) ==> Valid(Added(s, c, id))
  {
    match LineIndex(s, id)
    case Some(i) =>
    case None =>
      match ProductIndex(c, id)
      case Some(k) =>
        if Valid(s) {
          AddsKeepUnique(s, Line(c[k].id, c[k].title, c[k].price, 1));
        }
      case None =>
  }

  // ---------------------------------------------------------------------------
  // removeFromCart
  // ---------------------------------------------------------------------------

  /** Removing an id no line carries changes nothing. */
  lemma {:induction false} RemovedAbsent(s: seq<Line>, id: string)
    requires !InCart(s, id)
    ensures Removed(s, id) == s
  {
    if s != [] {
      assert s[0].id != id;
      assert !InCart(s[1..], id) by {
        forall j | 0 <= j < |s[1..]| ensures s[1..][j].id != id {
          assert s[1..][j] == s[j + 1];
        }
      }
      RemovedAbsent(s[1..], id);
      assert s == [s[0]] + s[1..];
    }
  }

  /** The filter distributes over concatenation: relative order of the kept lines is preserved. */
  lemma {:induction false} RemovedAppend(a: seq<Line>, b: seq<Line>, id: string)
    ensures Removed(a + b, id) == Removed(a, id) + Removed(b, id)
  {
    if a == [] {
      assert a + b == b;
    } else {
      assert (a + b)[1..] == a[1..] + b;
      RemovedAppend(a[1..], b, id);
    }
  }

  /** Removing a single line keeps it exactly when it carries another id. */
  lemma RemovedSingle(l: Line, id: string)
    ensures Removed([l], id) == if l.id == id then [] else [l]
  {
    assert [l][1..] == [];
  }

  /** With unique ids, removing the id of line `i` deletes exactly that line. */
  lemma RemovedAt(s: seq<Line>, id: string, i: nat)
    requires UniqueIds(s) && i < |s| && s[i].id == id
    ensures Removed(s, id) == s[..i] + s[i + 1..]
  {
    var before, after := s[..i], s[i + 1..];
    OthersAbsent(s, id, i, 0, i);
    OthersAbsent(s, id, i, i + 1, |s|);
    assert s == before + [s[i]] + after;
    calc {
      Removed(s, id);
    ==  { RemovedAppend(before + [s[i]], after, id); }
      Removed(before + [s[i]], id) + Removed(after, id);
    ==  { RemovedAppend(before, [s[i]], id); }
      Removed(before, id) + Removed([s[i]], id) + Removed(after, id);
    ==  { RemovedSingle(s[i], id); RemovedAbsent(before, id); RemovedAbsent(after, id); }
      before + [] + after;
    }
  }

  /** With unique ids, a slice that leaves out line `i` does not carry line `i`'s id. */
  lemma OthersAbsent(s: seq<Line>, id: string, i: nat, lo: nat, hi: nat)
    requires UniqueIds(s) && i < |s| && s[i].id == id
    requires lo <= hi <= |s| && (hi <= i || i < lo)
    ensures !InCart(s[lo..hi], id)
  {
    var t := s[lo..hi];
    forall j | 0 <= j < |t| ensures t[j].id != id {
      assert t[j] == s[lo + j];
    }
  }

  /** Removing twice is removing once. */
  lemma RemovedIdempotent(s: seq<Line>, id: string)
    ensures Removed(Removed(s, id), id) == Removed(s, id)
  {
    RemovedAbsent(Removed(s, id), id);
  }

  /** Every line of the filtered cart is a line of the old one, so the invariant carries over. */
  lemma {:induction false} RemovedKeepsValid(s: seq<Line>, id: string)
    ensures Valid(s) ==> Valid(Removed(s, id))
  {
    if s != [] && Valid(s) {
      var t := s[1..];
      assert Valid(t) by {
        forall j, k | 0 <= j < k < |t| ensures t[j].id != t[k].id {
          assert t[j] == s[j + 1] && t[k] == s[k + 1];
        }
      }
      RemovedKeepsValid(t, id);
      var rest := Removed(t, id);
      if s[0].id != id {
        assert !InCart(rest, s[0].id) by {
          forall j | 0 <= j < |rest| ensures rest[j].id != s[0].id {
            var m :| 0 <= m < |t| && t[m] == rest[j];
            assert t[m] == s[m + 1];
          }
        }
        var r := [s[0]] + rest;
        forall j, k | 0 <= j < k < |r| ensures r[j].id != r[k].id {
          assert r[k] == rest[k - 1];
          if j > 0 {
            assert r[j] == rest[j - 1];
          }
        }
        assert Valid(r);
      }
    }
  }

  /** The filter does not look at the quantity of a line that carries the removed id. */
  lemma {:induction false} RemovedIgnoresUpdate(s: seq<Line>, id: string, i: nat, l: Line)
    requires i < |s| && s[i].id == id && l.id == id
    ensures Removed(s[i := l], id) == Removed(s, id)
  {
    if i == 0 {
      assert s[i := l][1..] == s[1..];
    } else {
      assert s[i := l][1..] == s[1..][i - 1 := l];
      RemovedIgnoresUpdate(s[1..], id, i - 1, l);
    }
  }

  // ---------------------------------------------------------------------------
  // changeQty
  // ---------------------------------------------------------------------------

  /** Changing the quantity of an id no line carries leaves the cart as it was. */
  lemma QtyChangedAbsent(s: seq<Line>, id: string, delta: int)
    requires !InCart(s, id)
    ensures QtyChanged(s, id, delta) == s
  {
  }

  /**
   * Changing the first line `i` with the id by `delta` either sets its quantity
   * to `qty + delta` and changes nothing else, or, when that is not positive,
   * does what `removeFromCart` does; with unique ids, that removes exactly line `i`.
   */
  lemma QtyChangedPresent(s: seq<Line>, id: string, delta: int, i: nat)
    requires FirstWith(s, id, i)
    ensures s[i].qty + delta > 0 ==>
      QtyChanged(s, id, delta) == s[i := Line(s[i].id, s[i].title, s[i].price, s[i].qty + delta)]
    ensures s[i].qty + delta <= 0 ==> QtyChanged(s, id, delta) == Removed(s, id)
    ensures s[i].qty + delta <= 0 && UniqueIds(s) ==> QtyChanged(s, id, delta) == s[..i] + s[i + 1..]
  {
    LineIndexFirst(s, id, i);
    if UniqueIds(s) {
      RemovedAt(s, id, i);
    }
  }

  /** `changeQty` keeps the cart invariant: in particular no line of quantity at most 0 remains. */
  lemma QtyChangedKeepsValid(s: seq<Line>, id: string, delta: int)
    ensures Valid(s) ==> Valid(QtyChanged(s, id, delta))
  {
    match LineIndex(s, id)
    case None =>
    case Some(i) =>
      if s[i].qty + delta <= 0 {
        RemovedKeepsValid(s, id);
      }
  }

  // ---------------------------------------------------------------------------
  // The derived sums: `getTotal` and the item-count badge, both `reduce` folds
  // ---------------------------------------------------------------------------

  /** The price of one line, `price * qty`. */
  function Subtotal(l: Line): int
  {
    l.price * l.qty
  }

  function LineQty(l: Line): int
  {
    l.qty
  }

  /** `s.reduce((acc, l) => acc + term(l), 0)`: a left fold from 0. */
  function Sum(s: seq<Line>, term: Line -> int): int
  {
    if s == [] then 0 else Sum(s[..|s| - 1], term) + term(s[|s| - 1])
  }

  /** `getTotal`: the sum of `price * qty` over the lines. */
  function Total(s: seq<Line>): int
  {
    Sum(s, Subtotal)
  }

  /** The cart badge: the sum of `qty` over the lines. */
  function ItemCount(s: seq<Line>): int
  {
    Sum(s, LineQty)
  }

  /** Both sums of the empty cart are 0. */
  lemma SumsOfEmpty()
    ensures Total([]) == 0 && ItemCount([]) == 0
  {
  }

  /** A total worked out by hand: 2 x 10.00 + 1 x 5.50 = 25.50. */
  lemma TotalExample()
    ensures Total([Line("a", "A", 1000, 2), Line("b", "B", 550, 1)]) == 2550
  {
    var s := [Line("a", "A", 1000, 2), Line("b", "B", 550, 1)];
    assert s[..1] == [s[0]];
    assert [s[0]][..0] == [];
    assert Sum([s[0]], Subtotal) == 2000;
    assert Sum(s, Subtotal) == Sum([s[0]], Subtotal) + 550;
  }

  /** The fold is additive over concatenation. */
  lemma {:induction false} SumAppend(a: seq<Line>, b: seq<Line>, term: Line -> int)
    ensures Sum(a + b, term) == Sum(a, term) + Sum(b, term)
  {
    if b == [] {
      assert a + b == a;
    } else {
      assert (a + b)[..|a + b| - 1] == a + b[..|b| - 1];
      SumAppend(a, b[..|b| - 1], term);
    }
  }

  /** Replacing line `i` by `l` changes the fold by the difference of their terms. */
  lemma SumUpdate(s: seq<Line>, i: nat, l: Line, term: Line -> int)
    requires i < |s|
    ensures Sum(s[i := l], term) == Sum(s, term) - term(s[i]) + term(l)
  {
    SumSplit(s, i, term);
    SumSplit(s[i := l], i, term);
    assert s[i := l][..i] == s[..i];
    assert s[i := l][i + 1..] == s[i + 1..];
  }

  /** The fold over `s` is the fold before `i`, the term of line `i`, and the fold after it. */
  lemma SumSplit(s: seq<Line>, i: nat, term: Line -> int)
    requires i < |s|
    ensures Sum(s, term) == Sum(s[..i], term) + term(s[i]) + Sum(s[i + 1..], term)
  {
    assert s == s[..i] + [s[i]] + s[i + 1..];
    SumAppend(s[..i] + [s[i]], s[i + 1..], term);
    SumAppend(s[..i], [s[i]], term);
    assert [s[i]][..0] == [];
  }

  /** Adding an id already in the cart raises the total by its first line's price and the count by 1. */
  lemma AddedExistingSums(s: seq<Line>, c: seq<Product>, id: string, i: nat)
    requires FirstWith(s, id, i)
    ensures Total(Added(s, c, id)) == Total(s) + s[i].price
    ensures ItemCount(Added(s, c, id)) == ItemCount(s) + 1
  {
    LineIndexFirst(s, id, i);
    var l := s[i].(qty := s[i].qty + 1);
    assert Added(s, c, id) == s[i := l];
    SumUpdate(s, i, l, Subtotal);
    SumUpdate(s, i, l, LineQty);
  }

  /** Adding a new product raises the total by its price and the count by 1. */
  lemma AddedNewSums(s: seq<Line>, c: seq<Product>, id: string, k: nat)
    requires !InCart(s, id)
    requires k < |c| && c[k].id == id
    requires forall k' :: 0 <= k' < k ==> c[k'].id != id
    ensures Total(Added(s, c, id)) == Total(s) + c[k].price
    ensures ItemCount(Added(s, c, id)) == ItemCount(s) + 1
  {
    AddedNew(s, c, id, k);
    var l := Line(c[k].id, c[k].title, c[k].price, 1);
    assert (s + [l])[..|s|] == s;
  }

  /** With unique ids, removing line `i` lowers the total by its subtotal and the count by its quantity. */
  lemma RemovedSums(s: seq<Line>, id: string, i: nat)
    requires UniqueIds(s) && i < |s| && s[i].id == id
    ensures Total(Removed(s, id)) == Total(s) - s[i].price * s[i].qty
    ensures ItemCount(Removed(s, id)) == ItemCount(s) - s[i].qty
  {
    RemovedAt(s, id, i);
    SumSplit(s, i, Subtotal);
    SumSplit(s, i, LineQty);
    SumAppend(s[..i], s[i + 1..], Subtotal);
    SumAppend(s[..i], s[i + 1..], LineQty);
  }

  /** A change that keeps the first line with the id moves the total by `price * delta` and the count by `delta`. */
  lemma QtyChangedSums(s: seq<Line>, id: string, delta: int, i: nat)
    requires FirstWith(s, id, i) && s[i].qty + delta > 0
    ensures Total(QtyChanged(s, id, delta)) == Total(s) + s[i].price * delta
    ensures ItemCount(QtyChanged(s, id, delta)) == ItemCount(s) + delta
  {
    LineIndexFirst(s, id, i);
    var l := s[i].(qty := s[i].qty + delta);
    SumUpdate(s, i, l, Subtotal);
    SumUpdate(s, i, l, LineQty);
    assert Subtotal(l) == s[i].price * s[i].qty + s[i].price * delta;
  }

  /** In a valid cart the badge shows at least one item per line, and 0 only for the empty cart. */
  lemma {:induction false} ItemCountBounds(s: seq<Line>)
    requires AllPositive(s)
    ensures ItemCount(s) >= |s|
    ensures ItemCount(s) == 0 <==> s == []
  {
    if s != [] {
      var p := s[..|s| - 1];
      assert AllPositive(p) by {
        forall j | 0 <= j < |p| ensures p[j].qty >= 1 {
          assert p[j] == s[j];
        }
      }
      ItemCountBounds(p);
    }
  }

  // ---------------------------------------------------------------------------
  // The command interface the delegated click handler drives
  // ---------------------------------------------------------------------------

  /** The three actions a click can raise: add, remove, or change a quantity by `delta`. */
  datatype Command = AddItem(id: string) | RemoveItem(id: string) | StepQty(id: string, delta: int)

  /** The cart after one click: the command's mutator applied to the cart; every mutator keeps the invariant. */
  function Apply(s: seq<Line>, c: seq<Product>, cmd: Command): (r: seq<Line>)
    ensures Valid(s) ==> Valid(r)
  {
    match cmd
    case AddItem(id) =>
      AddedKeepsValid(s, c, id); Added(s, c, id)
    case RemoveItem(id) =>
      RemovedKeepsValid(s, id); Removed(s, id)
    case StepQty(id, delta) =>
      QtyChangedKeepsValid(s, id, delta); QtyChanged(s, id, delta)
  }

  /** The cart after each command in turn, in call order; every such sequence keeps the invariant. */
  function Run(s: seq<Line>, c: seq<Product>, cmds: seq<Command>): (r: seq<Line>)
    ensures Valid(s) ==> Valid(r)
    decreases |cmds|
  {
    if cmds == [] then s else Run(Apply(s, c, cmds[0]), c, cmds[1..])
  }

  /** Running one batch of commands and then another is running them one after the other. */
  lemma {:induction false} RunAppend(s: seq<Line>, c: seq<Product>, a: seq<Command>, b: seq<Command>)
    ensures Run(s, c, a + b) == Run(Run(s, c, a), c, b)
    decreases |a|
  {
    if a == [] {
      assert a + b == b;
    } else {
      assert (a + b)[1..] == a[1..] + b;
      RunAppend(Apply(s, c, a[0]), c, a[1..], b);
    }
  }
}
