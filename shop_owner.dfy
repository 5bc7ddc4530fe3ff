/** The shop owner's screen: the incoming-order list with accept/reject, the
    active-order count, and the inventory with delete, add and the low-stock
    flag. */
module ShopOwnerScreen {
  import opened Types
  import opened Constants

  /** The shop-side order status vocabulary. `Ready`, `PickedUp` and
      `Delivered` are declared but this screen never sets them. */
  datatype OrderStatus = Pending | Accepted | Ready | PickedUp | Delivered | Cancelled

  datatype ShopOrder = ShopOrder(
    id: string,
    customer: string,
    status: OrderStatus,
    total: int,
    items: string,
    time: string)

  const INITIAL_ORDERS: seq<ShopOrder> := [
    ShopOrder("#ORD-2201", "Arun Kumar", Pending, 450, "2x Fresh Milk", "Just now"),
    ShopOrder("#ORD-2198", "Ravi Teja", Accepted, 120, "1x Laddu Box", "1h ago")
  ]

  predicate OrderIdsDistinct(os: seq<ShopOrder>) {
    forall i, j :: 0 <= i < j < |os| ==> os[i].id != os[j].id
  }

  // ---------------------------------------------------------------------------
  // Orders.
  // ---------------------------------------------------------------------------

  /** `handleUpdateStatus(id, status)`: every order carrying `id` takes the new
      status; all else, order and length included, stays. */
  function WithStatus(os: seq<ShopOrder>, id: string, status: OrderStatus): (r: seq<ShopOrder>)
    ensures |r| == |os|
    ensures forall i :: 0 <= i < |os| ==> r[i] == os[i].(status := r[i].status)
    ensures forall i :: 0 <= i < |os| ==> r[i].status == if os[i].id == id then status else os[i].status
  {
    if os == [] then []
    else [if os[0].id == id then os[0].(status := status) else os[0]] + WithStatus(os[1..], id, status)
  }

  /** The buttons a card shows: Reject and Accept for a pending order; the
      "Order Ready" button of any other order has no handler. */
  function OfferedActions(s: OrderStatus): (r: seq<OrderStatus>)
    ensures forall a :: a in r ==> s == Pending && (a == Cancelled || a == Accepted)
    ensures s == Pending ==> Cancelled in r && Accepted in r
  {
    if s == Pending then [Cancelled, Accepted] else []
  }

  /** The statuses of the orders, in order. */
  function Statuses(os: seq<ShopOrder>): seq<OrderStatus> {
    seq(|os|, i requires 0 <= i < |os| => os[i].status)
  }

  /** The "Active" figure: the orders whose status is anything but CANCELLED. */
  function ActiveCount(os: seq<ShopOrder>): (n: nat)
    ensures n == |os| - multiset(Statuses(os))[Cancelled]
  {
    if os == [] then 0
    else
      assert Statuses(os) == [os[0].status] + Statuses(os[1..]);
      (if os[0].status != Cancelled then 1 else 0) + ActiveCount(os[1..])
  }

  lemma {:induction false} WithStatusUnmatched(os: seq<ShopOrder>, id: string, status: OrderStatus)
    requires forall o :: o in os ==> o.id != id
    ensures WithStatus(os, id, status) == os
  {
    if os != [] {
      WithStatusUnmatched(os[1..], id, status);
    }
  }

  lemma {:induction false} ActiveCountAfterUpdate(os: seq<ShopOrder>, i: nat, status: OrderStatus)
    requires OrderIdsDistinct(os) && i < |os|
    ensures ActiveCount(WithStatus(os, os[i].id, status))
         == ActiveCount(os) - (if os[i].status != Cancelled then 1 else 0) + (if status != Cancelled then 1 else 0)
  {
    if i == 0 {
      WithStatusUnmatched(os[1..], os[0].id, status);
    } else {
      assert OrderIdsDistinct(os[1..]);
      assert os[1..][i - 1] == os[i];
      ActiveCountAfterUpdate(os[1..], i - 1, status);
    }
  }

  /** Answering a pending order through one of its buttons changes that order
      alone, leaves it with no further buttons, and lowers the active count
      exactly when the answer is a rejection. */
  lemma AnswerPendingOrder(os: seq<ShopOrder>, i: nat, a: OrderStatus)
    requires OrderIdsDistinct(os) && i < |os| && a in OfferedActions(os[i].status)
    ensures WithStatus(os, os[i].id, a)[i].status == a
    ensures forall j :: 0 <= j < |os| && j != i ==> WithStatus(os, os[i].id, a)[j] == os[j]
    ensures OfferedActions(WithStatus(os, os[i].id, a)[i].status) == []
    ensures ActiveCount(WithStatus(os, os[i].id, a)) == ActiveCount(os) - (if a == Cancelled then 1 else 0)
  {
    ActiveCountAfterUpdate(os, i, a);
  }

  // ---------------------------------------------------------------------------
  // Inventory.
  // ---------------------------------------------------------------------------

  /** The products of the two stores this screen manages: exactly those of
      stores '1' and '2'. */
  function ShopInventory(ps: seq<Product>): (r: seq<Product>)
    ensures forall p :: p in r <==> p in ps && (p.storeId == "1" || p.storeId == "2")
  {
    if ps == [] then []
    else
      assert ps == [ps[0]] + ps[1..];
      if ps[0].storeId == "1" || ps[0].storeId == "2" then [ps[0]] + ShopInventory(ps[1..])
      else ShopInventory(ps[1..])
  }

  /** `prev.filter(p => p.id !== id)`. */
  function RemoveProduct(ps: seq<Product>, id: string): (r: seq<Product>)
    ensures forall p :: p in r <==> p in ps && p.id != id
    ensures |r| <= |ps|
  {
    if ps == [] then []
    else if ps[0].id != id then [ps[0]] + RemoveProduct(ps[1..], id)
    else RemoveProduct(ps[1..], id)
  }

  /** Deleting keeps the rest in order: it works on each part of a split list. */
  lemma {:induction false} RemoveProductSplit(a: seq<Product>, b: seq<Product>, id: string)
    ensures RemoveProduct(a + b, id) == RemoveProduct(a, id) + RemoveProduct(b, id)
  {
    if a == [] {
      assert a + b == b;
    } else {
      assert (a + b)[0] == a[0];
      assert (a + b)[1..] == a[1..] + b;
      RemoveProductSplit(a[1..], b, id);
      if a[0].id != id {
        assert RemoveProduct(a + b, id) == [a[0]] + RemoveProduct(a[1..] + b, id);
      }
    }
  }

  /** With distinct ids, deleting a listed product shortens the list by one. */
  lemma {:induction false} RemoveListedProduct(ps: seq<Product>, i: nat)
    requires IdsDistinct(ps) && i < |ps|
    ensures |RemoveProduct(ps, ps[i].id)| == |ps| - 1
  {
    if i == 0 {
      RemoveUnlistedProduct(ps[1..], ps[0].id);
    } else {
      assert IdsDistinct(ps[1..]);
      assert ps[1..][i - 1] == ps[i];
      RemoveListedProduct(ps[1..], i - 1);
    }
  }

  lemma {:induction false} RemoveUnlistedProduct(ps: seq<Product>, id: string)
    requires forall p :: p in ps ==> p.id != id
    ensures RemoveProduct(ps, id) == ps
  {
    if ps != [] {
      RemoveUnlistedProduct(ps[1..], id);
    }
  }

  /** The red stock figure. */
  predicate LowStock(p: Product) {
    p.stock < 15
  }

  /** A list of products of stores '1' and '2' is its own inventory. */
  lemma {:induction false} ShopInventoryKeepsOwn(ps: seq<Product>)
    requires forall p :: p in ps ==> p.storeId == "1" || p.storeId == "2"
    ensures ShopInventory(ps) == ps
  {
    if ps != [] {
      assert ps[0] in ps;
      assert forall p :: p in ps[1..] ==> p in ps;
      ShopInventoryKeepsOwn(ps[1..]);
    }
  }

  /** `MOCK_PRODUCTS.filter(p => p.storeId === '1' || p.storeId === '2')`. */
  function StartingProducts(): seq<Product> {
    ShopInventory(MOCK_PRODUCTS)
  }

  /** The screen starts with the whole catalogue, all of it from stores
      '1' and '2'. */
  lemma StartingInventory()
    ensures StartingProducts() == MOCK_PRODUCTS
  {
    ShopInventoryKeepsOwn(MOCK_PRODUCTS);
  }

  /** Of the starting inventory only Mysore Pak (stock 10) is flagged; Laddu
      Box, at exactly 15, is not. */
  lemma StartingLowStock()
    ensures forall p :: p in MOCK_PRODUCTS ==> (LowStock(p) <==> p.id == "p4")
  {
  }

  /** The add-product form; price and stock hold the text typed. */
  datatype ProductForm = ProductForm(name: string, tamil: string, price: string, stock: string)

  const EMPTY_FORM: ProductForm := ProductForm("", "", "", "")

  /** Save does something only when a name and a price were typed. */
  predicate CanAdd(form: ProductForm) {
    form.name != "" && form.price != ""
  }

  /** Save resets the form, so a second Save straight after a successful one
      does nothing, and neither does a Save missing a name or a price. */
  lemma EmptyFormCannotSave(form: ProductForm)
    ensures !CanAdd(EMPTY_FORM)
    ensures CanAdd(form) ==> form.name != EMPTY_FORM.name && form.price != EMPTY_FORM.price
  {
  }

  /** The product Save creates: store '1', the form's texts, and its price and
      stock through `toNumber`, which stands for `Number(...)`. */
  function NewProduct(form: ProductForm, id: string, toNumber: string -> int): Product {
    Product(id, "1", form.name, form.tamil, toNumber(form.price), toNumber(form.stock))
  }

  /** A saved product under a fresh id is deleted again by its own trash
      button, which gives back exactly the list it was added to. */
  lemma AddThenDeleteRestores(form: ProductForm, id: string, toNumber: string -> int, ps: seq<Product>)
    requires forall p :: p in ps ==> p.id != id
    ensures RemoveProduct([NewProduct(form, id, toNumber)] + ps, id) == ps
  {
    RemoveProductSplit([NewProduct(form, id, toNumber)], ps, id);
    RemoveUnlistedProduct(ps, id);
  }

  /** A saved product belongs to store '1', so it is one of this screen's
      own: the inventory of the extended list is the old inventory with the
      new product in front. */
  lemma AddedProductIsOwn(form: ProductForm, id: string, toNumber: string -> int, ps: seq<Product>)
    ensures ShopInventory([NewProduct(form, id, toNumber)] + ps) == [NewProduct(form, id, toNumber)] + ShopInventory(ps)
  {
    var q := [NewProduct(form, id, toNumber)] + ps;
    assert q[0] == NewProduct(form, id, toNumber) && q[1..] == ps;
  }

  /** The saved product's stock figure is red exactly when `Number` of the
      typed stock is under 15; the products already listed keep their flag. */
  lemma AddedProductLowStock(form: ProductForm, id: string, toNumber: string -> int, ps: seq<Product>)
    ensures LowStock(NewProduct(form, id, toNumber)) <==> toNumber(form.stock) < 15
    ensures forall p :: p in [NewProduct(form, id, toNumber)] + ps && LowStock(p) <==>
      (p == NewProduct(form, id, toNumber) && toNumber(form.stock) < 15) || (p in ps && LowStock(p))
  {
  }

  datatype Tab = Orders | Products

  class ShopOwnerView {
    var activeTab: Tab
    var showAddProduct: bool
    var products: seq<Product>
    var newProduct: ProductForm
    var orders: seq<ShopOrder>

    constructor ()
      ensures activeTab == Orders && !showAddProduct
      ensures products == StartingProducts()
      ensures newProduct == EMPTY_FORM && orders == INITIAL_ORDERS
    {
      activeTab := Orders;
      showAddProduct := false;
      products := StartingProducts();
      newProduct := EMPTY_FORM;
      orders := INITIAL_ORDERS;
    }

    function ActiveOrders(): (n: nat)
      reads this
      ensures n == |orders| - multiset(Statuses(orders))[Cancelled]
    {
      ActiveCount(orders)
    }

    method HandleUpdateStatus(id: string, status: OrderStatus)
      modifies this
      ensures orders == WithStatus(old(orders), id, status)
      ensures activeTab == old(activeTab) && showAddProduct == old(showAddProduct)
      ensures products == old(products) && newProduct == old(newProduct)
    {
      orders := WithStatus(orders, id, status);
    }

    /** `deleteProduct(id)`; `confirmed` is the answer to the confirmation dialog. */
    method DeleteProduct(id: string, confirmed: bool)
      modifies this
      ensures products == if confirmed then RemoveProduct(old(products), id) else old(products)
      ensures activeTab == old(activeTab) && showAddProduct == old(showAddProduct)
      ensures newProduct == old(newProduct) && orders == old(orders)
    {
      if confirmed {
        products := RemoveProduct(products, id);
      }
    }

    method OpenAddProduct()
      modifies this
      ensures showAddProduct
      ensures activeTab == old(activeTab) && products == old(products)
      ensures newProduct == old(newProduct) && orders == old(orders)
    {
      showAddProduct := true;
    }

    /** The dialog's close button; the form keeps what was typed. */
    method CloseAddProduct()
      modifies this
      ensures !showAddProduct
      ensures activeTab == old(activeTab) && products == old(products)
      ensures newProduct == old(newProduct) && orders == old(orders)
    {
      showAddProduct := false;
    }

    method SelectTab(tab: Tab)
      modifies this
      ensures activeTab == tab
      ensures showAddProduct == old(showAddProduct) && products == old(products)
      ensures newProduct == old(newProduct) && orders == old(orders)
    {
      activeTab := tab;
    }

    /** Typing into the form's fields. */
    method EditForm(form: ProductForm)
      modifies this
      ensures newProduct == form
      ensures activeTab == old(activeTab) && showAddProduct == old(showAddProduct)
      ensures products == old(products) && orders == old(orders)
    {
      newProduct := form;
    }

    /** `handleAddProduct`; `id` stands for the clock-derived `p<millis>`. */
    method HandleAddProduct(id: string, toNumber: string -> int) returns (added: bool)
      modifies this
      ensures added == CanAdd(old(newProduct))
      ensures added ==> products == [NewProduct(old(newProduct), id, toNumber)] + old(products)
      ensures added ==> newProduct == EMPTY_FORM && !showAddProduct
      ensures !added ==>
        products == old(products) && newProduct == old(newProduct) && showAddProduct == old(showAddProduct)
      ensures activeTab == old(activeTab) && orders == old(orders)
    {
      added := CanAdd(newProduct);
      if added {
        products := [NewProduct(newProduct, id, toNumber)] + products;
        newProduct := EMPTY_FORM;
        showAddProduct := false;
      }
    }
  }
}
