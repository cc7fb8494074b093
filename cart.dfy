/** The shopping cart (`src/features/cart/model/cart.ts`): the cart store and
    its reducers, the count, checkout into the persisted order log, the cart
    drawer flag and the priced view of the cart. */
module Cart {
  import opened Wrappers
  import Storage
  import Money
  import Catalog
  import Seqs
  import Decimal

  datatype CartItem = CartItem(productId: string, qty: int)
  datatype CartState = CartState(items: seq<CartItem>)
  datatype OrderItem = OrderItem(productId: string, qty: int, priceCents: int)
  datatype Order = Order(id: string, createdAt: string, items: seq<OrderItem>, subtotalCents: int)

  const CartKey: string := "cart"
  const OrdersKey: string := "orders"
  const ProductNotFound: string := "Product not found"

  /** `{ items: [] }`: the fallback when nothing is stored, and the state
      after `clearCart`. */
  const EmptyCart := CartState([])

  /** The sum of the quantities (`$cartCount`). */
  function Count(items: seq<CartItem>): (r: int)
    ensures items == [] ==> r == 0
    ensures (forall i :: 0 <= i < |items| ==> items[i].qty >= 0) ==>
      r >= 0 && forall i :: 0 <= i < |items| ==> items[i].qty <= r
  {
    if items == [] then 0 else items[0].qty + Count(items[1..])
  }

  /** Appending a line adds its quantity to the count. */
  lemma {:induction false} CountAppend(items: seq<CartItem>, x: CartItem)
    ensures Count(items + [x]) == Count(items) + x.qty
  {
    if items != [] {
      assert (items + [x])[1..] == items[1..] + [x];
      CountAppend(items[1..], x);
    }
  }

  /** Replacing one line changes the count by the difference of quantities. */
  lemma {:induction false} CountUpdate(items: seq<CartItem>, i: nat, x: CartItem)
    requires i < |items|
    ensures Count(items[i := x]) == Count(items) - items[i].qty + x.qty
  {
    if i > 0 {
      assert items[i := x][1..] == items[1..][i - 1 := x];
      CountUpdate(items[1..], i - 1, x);
    }
  }

  /** No two lines are for the same product. */
  predicate DistinctLines(items: seq<CartItem>) {
    forall i, j :: 0 <= i < j < |items| ==> items[i].productId != items[j].productId
  }

  /** The test `i => i.productId === productId` of `findIndex`. */
  function IsLineFor(productId: string): CartItem -> bool {
    (item: CartItem) => item.productId == productId
  }

  /** `addItem({ productId, qty })`, `qty` defaulting to 1: the first line
      for the product grows by `qty` in place, or a new line is appended. */
  function AddItem(s: CartState, productId: string, qty: Option<int>): (r: CartState)
    ensures var q := qty.GetOr(1);
      (forall k :: 0 <= k < |s.items| ==> s.items[k].productId != productId) ==>
        r.items == s.items + [CartItem(productId, q)]
    ensures var q := qty.GetOr(1); var i := Seqs.FirstIndex(s.items, IsLineFor(productId));
      i < |s.items| ==> r.items == s.items[i := CartItem(productId, s.items[i].qty + q)]
  {
    var q := qty.GetOr(1);
    var i := Seqs.FirstIndex(s.items, IsLineFor(productId));
    if i < |s.items| then CartState(s.items[i := CartItem(productId, s.items[i].qty + q)])
    else CartState(s.items + [CartItem(productId, q)])
  }

  /** Adding raises the count by exactly the added quantity. */
  lemma AddItemCount(s: CartState, productId: string, qty: Option<int>)
    ensures Count(AddItem(s, productId, qty).items) == Count(s.items) + qty.GetOr(1)
  {
    var q := qty.GetOr(1);
    var i := Seqs.FirstIndex(s.items, IsLineFor(productId));
    if i < |s.items| {
      CountUpdate(s.items, i, CartItem(productId, s.items[i].qty + q));
    } else {
      CountAppend(s.items, CartItem(productId, q));
    }
  }

  /** Adding never creates a second line for a product. */
  lemma AddItemKeepsLinesDistinct(s: CartState, productId: string, qty: Option<int>)
    requires DistinctLines(s.items)
    ensures DistinctLines(AddItem(s, productId, qty).items)
  {
  }

  function KeepOther(productId: string): CartItem -> bool {
    (i: CartItem) => i.productId != productId
  }

  /** `removeItem({ productId })`: every line for the product goes, the others
      stay in order. */
  function RemoveItem(s: CartState, productId: string): (r: CartState)
    ensures |r.items| <= |s.items|
    ensures forall i :: 0 <= i < |r.items| ==> r.items[i] in s.items && r.items[i].productId != productId
    ensures forall i :: 0 <= i < |s.items| && s.items[i].productId != productId ==> s.items[i] in r.items
  {
    CartState(Seqs.Filter(s.items, KeepOther(productId)))
  }

  /** Removal works line by line: the kept lines of two carts joined are
      the kept lines of each, joined, so the order of the rest is kept. */
  lemma RemoveItemKeepsOrder(a: seq<CartItem>, b: seq<CartItem>, productId: string)
    ensures RemoveItem(CartState(a + b), productId).items ==
            RemoveItem(CartState(a), productId).items + RemoveItem(CartState(b), productId).items
  {
    Seqs.FilterConcat(a, b, KeepOther(productId));
  }

  /** A single line is dropped exactly when it is for the product. */
  lemma RemoveItemOneLine(x: CartItem, productId: string)
    ensures RemoveItem(CartState([x]), productId).items == if x.productId == productId then [] else [x]
  {
    assert [x][1..] == [];
  }

  /** Removing a product the cart does not hold changes nothing. */
  lemma RemoveAbsent(s: CartState, productId: string)
    requires forall k :: 0 <= k < |s.items| ==> s.items[k].productId != productId
    ensures RemoveItem(s, productId) == s
  {
    Seqs.FilterAll(s.items, KeepOther(productId));
  }

  /** `changeQty({ productId, qty })`: every line for the product takes the new
      quantity as given (no clamping); lines and their order are kept. */
  function ChangeQty(s: CartState, productId: string, qty: int): (r: CartState)
    ensures |r.items| == |s.items|
    ensures forall i :: 0 <= i < |s.items| ==> r.items[i].productId == s.items[i].productId
    ensures forall i :: 0 <= i < |s.items| ==>
      r.items[i].qty == if s.items[i].productId == productId then qty else s.items[i].qty
  {
    CartState(seq(|s.items|, i requires 0 <= i < |s.items| =>
      if s.items[i].productId == productId then CartItem(productId, qty) else s.items[i]))
  }

  /** Removing keeps one line per product. */
  lemma {:induction false} RemoveKeepsLinesDistinct(items: seq<CartItem>, productId: string)
    requires DistinctLines(items)
    ensures DistinctLines(Seqs.Filter(items, KeepOther(productId)))
  {
    if items != [] {
      var rest := Seqs.Filter(items[1..], KeepOther(productId));
      RemoveKeepsLinesDistinct(items[1..], productId);
      assert forall k :: 0 <= k < |rest| ==> rest[k] in items[1..];
      assert forall k :: 0 <= k < |rest| ==> rest[k].productId != items[0].productId;
    }
  }

  /** With one line per product, setting a quantity moves the count from the
      old quantity to the new one. */
  lemma ChangeQtyCount(s: CartState, productId: string, qty: int, i: nat)
    requires DistinctLines(s.items)
    requires i < |s.items| && s.items[i].productId == productId
    ensures Count(ChangeQty(s, productId, qty).items) == Count(s.items) - s.items[i].qty + qty
  {
    assert ChangeQty(s, productId, qty).items == s.items[i := CartItem(productId, qty)];
    CountUpdate(s.items, i, CartItem(productId, qty));
  }

  /** The cart events. */
  datatype CartEvent =
    | Added(productId: string, addQty: Option<int>)
    | Removed(productId: string)
    | QtyChanged(productId: string, qty: int)
    | Cleared

  /** The store's reducer: each event's effect on the cart. */
  function Reduce(s: CartState, ev: CartEvent): (r: CartState)
    ensures ev.Cleared? ==> r == EmptyCart
    ensures ev.Added? ==> Count(r.items) == Count(s.items) + ev.addQty.GetOr(1)
    ensures ev.Removed? ==> forall i :: 0 <= i < |r.items| ==> r.items[i].productId != ev.productId
    ensures ev.QtyChanged? ==> |r.items| == |s.items|
    ensures DistinctLines(s.items) ==> DistinctLines(r.items)
  {
    match ev
    case Added(p, q) => AddItemCount(s, p, q); AddItem(s, p, q)
    case Removed(p) =>
      if DistinctLines(s.items) then RemoveKeepsLinesDistinct(s.items, p); RemoveItem(s, p) else RemoveItem(s, p)
    case QtyChanged(p, q) => ChangeQty(s, p, q)
    case Cleared => EmptyCart
  }

  /** The price of each cart line, from the first product with its id: the
      `cart.items.map` of checkout, which throws when a product is missing. */
  function PriceLines(items: seq<CartItem>, products: seq<Catalog.Product>): (r: Result<seq<OrderItem>, string>)
    ensures r.Err? <==> exists i :: 0 <= i < |items| && Catalog.FindById(products, items[i].productId).None?
    ensures r.Err? ==> r.error == ProductNotFound
    ensures r.Ok? ==> |r.value| == |items| && forall i :: 0 <= i < |items| ==>
      r.value[i] == OrderItem(items[i].productId, items[i].qty, Catalog.FindById(products, items[i].productId).value.priceCents)
  {
    if items == [] then Ok([])
    else
      match Catalog.FindById(products, items[0].productId)
      case None => Err(ProductNotFound)
      case Some(p) =>
        var rest := PriceLines(items[1..], products);
        assert forall i :: 1 <= i < |items| ==> items[i] == items[1..][i - 1];
        match rest
        case Err(e) => Err(e)
        case Ok(lines) => Ok([OrderItem(items[0].productId, items[0].qty, p.priceCents)] + lines)
  }

  /** `items.reduce((sum, i) => sum + i.priceCents * i.qty, 0)`. */
  /** No order line has a negative price or quantity. */
  predicate NonNegativeOrder(lines: seq<OrderItem>) {
    forall i :: 0 <= i < |lines| ==> lines[i].priceCents >= 0 && lines[i].qty >= 0
  }

  function Subtotal(lines: seq<OrderItem>): (r: int)
    ensures NonNegativeOrder(lines) ==> r >= 0
  {
    if lines == [] then 0 else lines[0].priceCents * lines[0].qty + Subtotal(lines[1..])
  }

  /** What `checkoutFx` produces: nothing for an empty cart, an order, or the
      failure it throws. */
  datatype CheckoutOutcome = NoOrder | Placed(order: Order) | Failed(message: string)

  /** The order log after `order` is pushed onto what `readJSON('orders', [])`
      gives and written back, and the cart is then cleared and saved. */
  function AfterCheckout(entries: map<string, string>, order: Order,
                         cartCodec: Storage.Codec<CartState>, ordersCodec: Storage.Codec<seq<Order>>): (r: map<string, string>)
    ensures r.Keys == entries.Keys + {Storage.GetKey(OrdersKey), Storage.GetKey(CartKey)}
    ensures forall k :: k in entries && k != Storage.GetKey(OrdersKey) && k != Storage.GetKey(CartKey) ==> r[k] == entries[k]
  {
    var log := Storage.Read(entries, OrdersKey, [], ordersCodec.decode) + [order];
    entries[Storage.GetKey(OrdersKey) := ordersCodec.encode(log)][Storage.GetKey(CartKey) := cartCodec.encode(EmptyCart)]
  }

  /** After a checkout the log reads back as the old log plus the new order,
      and the cart reads back empty. */
  lemma CheckoutAppendsOrder(entries: map<string, string>, order: Order,
                             cartCodec: Storage.Codec<CartState>, ordersCodec: Storage.Codec<seq<Order>>, fallback: CartState)
    requires Storage.RoundTrips(ordersCodec, Storage.Read(entries, OrdersKey, [], ordersCodec.decode) + [order])
    requires Storage.RoundTrips(cartCodec, EmptyCart)
    ensures var after := AfterCheckout(entries, order, cartCodec, ordersCodec);
      Storage.Read(after, OrdersKey, [], ordersCodec.decode) == Storage.Read(entries, OrdersKey, [], ordersCodec.decode) + [order] &&
      Storage.Read(after, CartKey, fallback, cartCodec.decode) == EmptyCart
  {
    var log := Storage.Read(entries, OrdersKey, [], ordersCodec.decode) + [order];
    var written := entries[Storage.GetKey(OrdersKey) := ordersCodec.encode(log)];
    Storage.ReadAfterWrite(entries, OrdersKey, log, [], ordersCodec);
    Storage.OtherKeysUnchanged(written, CartKey, cartCodec.encode(EmptyCart), OrdersKey, [], ordersCodec.decode);
    Storage.ReadAfterWrite(written, CartKey, EmptyCart, fallback, cartCodec);
  }

  /** `$cart` together with the `localStorage` it is saved to. */
  class CartStore {
    var cart: CartState
    const storage: Storage.LocalStorage
    const cartCodec: Storage.Codec<CartState>
    const ordersCodec: Storage.Codec<seq<Order>>

    /** The watcher has saved the current cart under `cart`. */
    ghost predicate Saved()
      reads this, storage
    {
      Storage.GetKey(CartKey) in storage.entries && storage.entries[Storage.GetKey(CartKey)] == cartCodec.encode(cart)
    }

    /** `createStore(loadCart())` followed by `$cart.watch(saveCart)`, which
        saves the loaded cart at once. */
    constructor Load(storage: Storage.LocalStorage, cartCodec: Storage.Codec<CartState>, ordersCodec: Storage.Codec<seq<Order>>)
      modifies storage
      ensures this.storage == storage && this.cartCodec == cartCodec && this.ordersCodec == ordersCodec
      ensures cart == Storage.Read(old(storage.entries), CartKey, EmptyCart, cartCodec.decode)
      ensures storage.entries == old(storage.entries)[Storage.GetKey(CartKey) := cartCodec.encode(cart)]
      ensures Saved()
    {
      var loaded := storage.ReadJSON(CartKey, EmptyCart, cartCodec.decode);
      this.storage := storage;
      this.cartCodec := cartCodec;
      this.ordersCodec := ordersCodec;
      cart := loaded;
      new;
      storage.WriteJSON(CartKey, cart, cartCodec.encode);
    }

    /** An event reaches the store: the reducer runs and the watcher saves. */
    method Dispatch(ev: CartEvent)
      modifies this, storage
      ensures cart == Reduce(old(cart), ev)
      ensures storage.entries == old(storage.entries)[Storage.GetKey(CartKey) := cartCodec.encode(cart)]
      ensures Saved()
    {
      cart := Reduce(cart, ev);
      storage.WriteJSON(CartKey, cart, cartCodec.encode);
    }

    /** `checkoutFx`, given the listed products, the order id and the
        timestamp (the clock is outside the model). */
    method Checkout(products: seq<Catalog.Product>, orderId: string, createdAt: string) returns (r: CheckoutOutcome)
      modifies this, storage
      ensures old(cart).items == [] ==>
        r == NoOrder && cart == old(cart) && storage.entries == old(storage.entries)
      ensures old(cart).items != [] && PriceLines(old(cart).items, products).Err? ==>
        r == Failed(ProductNotFound) && cart == old(cart) && storage.entries == old(storage.entries)
      ensures old(cart).items != [] && PriceLines(old(cart).items, products).Ok? ==>
        var lines := PriceLines(old(cart).items, products).value;
        r == Placed(Order(orderId, createdAt, lines, Subtotal(lines))) && cart == EmptyCart &&
        storage.entries == AfterCheckout(old(storage.entries), r.order, cartCodec, ordersCodec)
    {
      if cart.items == [] {
        return NoOrder;
      }
      var priced := PriceLines(cart.items, products);
      if priced.Err? {
        return Failed(priced.error);
      }
      var order := Order(orderId, createdAt, priced.value, Subtotal(priced.value));
      var orders := storage.ReadJSON(OrdersKey, [], ordersCodec.decode);
      orders := orders + [order];
      storage.WriteJSON(OrdersKey, orders, ordersCodec.encode);
      Dispatch(Cleared);
      r := Placed(order);
    }
  }

  /** `$isCartOpen`: starts closed; open and close events set it. */
  datatype DrawerEvent = OpenCart | CloseCart

  /** One `.on` handler of `$isCartOpen`: both handlers ignore the previous
      state `open` and set a constant. */
  function DrawerOpen(open: bool, ev: DrawerEvent): (r: bool)
    ensures r <==> ev.OpenCart?
  {
    match ev
    case OpenCart => true
    case CloseCart => false
  }

  /** The drawer state after a run of events, from the initial `false`: open
      exactly when the most recent event was `openCart`. */
  function DrawerAfter(evs: seq<DrawerEvent>): (r: bool)
    ensures r <==> evs != [] && evs[|evs| - 1].OpenCart?
  {
    if evs == [] then false else DrawerOpen(DrawerAfter(evs[..|evs| - 1]), evs[|evs| - 1])
  }

  /** `new Map(products.map(p => [p.id, p])).get(id)`: a later product with
      the same id overwrites an earlier one, so the last one is found. */
  function LastById(products: seq<Catalog.Product>, id: string): (r: Option<Catalog.Product>)
    ensures r.None? <==> forall k :: 0 <= k < |products| ==> products[k].id != id
    ensures r.Some? ==> r.value.id == id && r.value in products
    ensures r.Some? ==>
      exists k :: 0 <= k < |products| && products[k] == r.value && forall m :: k < m < |products| ==> products[m].id != id
  {
    if products == [] then None
    else if products[|products| - 1].id == id then Some(products[|products| - 1])
    else LastById(products[..|products| - 1], id)
  }

  /** With distinct product ids the last and the first product with an id
      are the same one. */
  lemma {:induction false} LastIsFirst(products: seq<Catalog.Product>, id: string)
    requires Catalog.DistinctIds(products)
    ensures LastById(products, id) == Catalog.FindById(products, id)
  {
    if products != [] {
      var init := products[..|products| - 1];
      LastIsFirst(init, id);
      if products[|products| - 1].id == id {
        Seqs.FirstIndexIsFirst(products, Catalog.HasId(id), |products| - 1);
      } else if Catalog.FindById(init, id).Some? {
        var i := Seqs.FirstIndex(init, Catalog.HasId(id));
        Seqs.FirstIndexIsFirst(products, Catalog.HasId(id), i);
      }
    }
  }

  /** A cart line with its product attached. */
  datatype CartLine = CartLine(productId: string, qty: int, product: Catalog.Product)

  /** The lines of `useCartProducts`: each cart line with the product the map
      holds for it, lines whose product is unknown dropped. */
  function Enrich(items: seq<CartItem>, products: seq<Catalog.Product>): (r: seq<CartLine>)
    ensures |r| <= |items|
    ensures forall i :: 0 <= i < |r| ==>
      CartItem(r[i].productId, r[i].qty) in items && LastById(products, r[i].productId) == Some(r[i].product)
    ensures forall i :: 0 <= i < |items| && LastById(products, items[i].productId).Some? ==>
      CartLine(items[i].productId, items[i].qty, LastById(products, items[i].productId).value) in r
    ensures (forall i :: 0 <= i < |items| ==> LastById(products, items[i].productId).Some?) ==> |r| == |items|
  {
    if items == [] then []
    else
      assert forall i :: 1 <= i < |items| ==> items[i] == items[1..][i - 1];
      var rest := Enrich(items[1..], products);
      match LastById(products, items[0].productId)
      case None => rest
      case Some(p) => [CartLine(items[0].productId, items[0].qty, p)] + rest
  }

  /** Enriching works line by line, so the surviving lines keep the order
      of the cart. */
  lemma {:induction false} EnrichConcat(a: seq<CartItem>, b: seq<CartItem>, products: seq<Catalog.Product>)
    ensures Enrich(a + b, products) == Enrich(a, products) + Enrich(b, products)
  {
    if a == [] {
      assert a + b == b;
    } else {
      assert (a + b)[0] == a[0];
      assert (a + b)[1..] == a[1..] + b;
      EnrichConcat(a[1..], b, products);
    }
  }

  /** A single line survives, carrying the map's product, exactly when the
      map holds its product. */
  lemma EnrichOneLine(x: CartItem, products: seq<Catalog.Product>)
    ensures Enrich([x], products) ==
      match LastById(products, x.productId)
      case None => []
      case Some(p) => [CartLine(x.productId, x.qty, p)]
  {
    assert [x][1..] == [];
  }

  /** `enriched.reduce((sum, i) => sum + i.qty * i.product.priceCents, 0)`. */
  /** No cart line has a negative quantity or price. */
  predicate NonNegativeLines(lines: seq<CartLine>) {
    forall i :: 0 <= i < |lines| ==> lines[i].qty >= 0 && lines[i].product.priceCents >= 0
  }

  function LinesTotal(lines: seq<CartLine>): (r: int)
    ensures NonNegativeLines(lines) ==> r >= 0
  {
    if lines == [] then 0 else lines[0].qty * lines[0].product.priceCents + LinesTotal(lines[1..])
  }

  /** What `useCartProducts` returns. */
  datatype CartView = CartView(items: seq<CartLine>, totalText: string, isEmpty: bool)

  function CartProducts(s: CartState, products: seq<Catalog.Product>): (v: CartView)
    ensures v.isEmpty <==> v.items == []
    ensures v.items == Enrich(s.items, products)
    ensures Decimal.DigitValue(v.totalText) == if LinesTotal(v.items) < 0 then -LinesTotal(v.items) else LinesTotal(v.items)
    ensures |v.totalText| >= 5 && (v.totalText[0] == '-' <==> LinesTotal(v.items) < 0)
  {
    var lines := Enrich(s.items, products);
    CartView(lines, Money.FormatCents(LinesTotal(lines)), lines == [])
  }

  /** With distinct product ids and every product found, the drawer shows the
      subtotal the checkout would charge, and all the lines. */
  lemma {:induction false} ViewTotalIsCheckoutSubtotal(items: seq<CartItem>, products: seq<Catalog.Product>)
    requires Catalog.DistinctIds(products)
    requires PriceLines(items, products).Ok?
    ensures |Enrich(items, products)| == |items|
    ensures LinesTotal(Enrich(items, products)) == Subtotal(PriceLines(items, products).value)
  {
    if items != [] {
      var id, qty := items[0].productId, items[0].qty;
      LastIsFirst(products, id);
      var p := Catalog.FindById(products, id).value;
      var rest := PriceLines(items[1..], products);
      assert rest.Ok?;
      ViewTotalIsCheckoutSubtotal(items[1..], products);
      var e := Enrich(items[1..], products);
      assert Enrich(items, products) == [CartLine(id, qty, p)] + e;
      assert PriceLines(items, products).value == [OrderItem(id, qty, p.priceCents)] + rest.value;
      assert qty * p.priceCents == p.priceCents * qty;
      assert ([CartLine(id, qty, p)] + e)[1..] == e;
      assert ([OrderItem(id, qty, p.priceCents)] + rest.value)[1..] == rest.value;
    }
  }
}
