/** The shopping cart kept under one storage key (`CartManager`), the cart page's summary
    arithmetic and its quantity, delete and clear handlers. */
module Cart {
  import opened Wrappers
  import opened Products
  import Seqs

  const SHIPPING_COST: int := 30
  /** The `data-action` of the "+" button; any other action decreases. */
  const INCREASE: string := "increase"

  /** One cart line: a copy of the product's fields taken when it was first added. */
  datatype CartLine = CartLine(id: string, name: string, price: int, imageUrl: string, quantity: int)

  /** The line `addToCart` appends for a product that is not yet in the cart. */
  function NewLine(p: Product): CartLine {
    CartLine(p.id, p.name, p.price, p.imageUrl, 1)
  }

  /** `cart.find(item => item.id === id)`, as the index of the first matching line. */
  function FindIndex(cart: seq<CartLine>, id: string): (r: Option<nat>)
    ensures r.Some? ==> r.value < |cart| && cart[r.value].id == id
    ensures r.Some? ==> forall j :: 0 <= j < r.value ==> cart[j].id != id
    ensures r.None? ==> forall j :: 0 <= j < |cart| ==> cart[j].id != id
  {
    if cart == [] then None
    else if cart[0].id == id then Some(0)
    else match FindIndex(cart[1..], id)
      case None => None
      case Some(k) => Some(k + 1)
  }

  /** No two lines share an id and every quantity is at least 1: what the operations keep. */
  ghost predicate ValidCart(cart: seq<CartLine>) {
    && (forall i, j :: 0 <= i < j < |cart| ==> cart[i].id != cart[j].id)
    && (forall i :: 0 <= i < |cart| ==> cart[i].quantity >= 1)
  }

  // ---------------------------------------------------------------------------
  // Count and total: `cart.reduce((total, item) => total + f(item), 0)`
  // ---------------------------------------------------------------------------

  /** A left-to-right `reduce` that adds up `f` over the lines. */
  function SumOf(cart: seq<CartLine>, f: CartLine -> int): int {
    if cart == [] then 0 else SumOf(cart[..|cart| - 1], f) + f(cart[|cart| - 1])
  }

  function Quantity(line: CartLine): int {
    line.quantity
  }

  function LineTotal(line: CartLine): int {
    line.price * line.quantity
  }

  /** `getCartCount`: the sum of the quantities. */
  function Count(cart: seq<CartLine>): int {
    SumOf(cart, Quantity)
  }

  /** `getCartTotal`: the sum of price times quantity. */
  function Total(cart: seq<CartLine>): int {
    SumOf(cart, LineTotal)
  }

  lemma {:induction false} SumConcat(a: seq<CartLine>, b: seq<CartLine>, f: CartLine -> int)
    ensures SumOf(a + b, f) == SumOf(a, f) + SumOf(b, f)
  {
    if b == [] {
      assert a + b == a;
    } else {
      SumConcat(a, b[..|b| - 1], f);
      assert (a + b)[..|a + b| - 1] == a + b[..|b| - 1];
    }
  }

  /** Taking line `k` out lowers the sum by that line's term. */
  lemma {:induction false} SumRemoveAt(b: seq<CartLine>, k: nat, f: CartLine -> int)
    requires k < |b|
    ensures SumOf(b, f) == SumOf(b[..k] + b[k + 1..], f) + f(b[k])
    decreases |b|
  {
    var init, last := b[..|b| - 1], b[|b| - 1];
    if k == |b| - 1 {
      assert b[..k] + b[k + 1..] == init;
    } else {
      SumRemoveAt(init, k, f);
      assert b[..k] + b[k + 1..] == (init[..k] + init[k + 1..]) + [last];
      SumAppend(init[..k] + init[k + 1..], last, f);
    }
  }

  lemma MultisetRemoveAt(b: seq<CartLine>, k: nat)
    requires k < |b|
    ensures multiset(b[..k] + b[k + 1..]) == multiset(b) - multiset{b[k]}
  {
    assert b == b[..k] + [b[k]] + b[k + 1..];
    assert multiset(b) == multiset(b[..k]) + multiset{b[k]} + multiset(b[k + 1..]);
  }

  /** The sum does not depend on the order of the lines. */
  lemma {:induction false} SumPermutation(a: seq<CartLine>, b: seq<CartLine>, f: CartLine -> int)
    requires multiset(a) == multiset(b)
    ensures SumOf(a, f) == SumOf(b, f)
    decreases |a|
  {
    if a != [] {
      var x := a[|a| - 1];
      var a' := a[..|a| - 1];
      assert a == a' + [x];
      assert x in multiset(b);
      var k :| 0 <= k < |b| && b[k] == x;
      var rest := b[..k] + b[k + 1..];
      MultisetRemoveAt(b, k);
      assert multiset(a) == multiset(a') + multiset{x};
      assert multiset(a') == multiset(rest);
      SumPermutation(a', rest, f);
      SumRemoveAt(b, k, f);
      assert SumOf(a, f) == SumOf(a', f) + f(x);
    }
  }

  /** The count and the total of a cart do not depend on the order of its lines. */
  lemma CountTotalOrderIndependent(a: seq<CartLine>, b: seq<CartLine>)
    requires multiset(a) == multiset(b)
    ensures Count(a) == Count(b) && Total(a) == Total(b)
  {
    SumPermutation(a, b, Quantity);
    SumPermutation(a, b, LineTotal);
  }

  /** Replacing line `i` changes the sum by the difference of the two lines' terms. */
  lemma SumReplace(cart: seq<CartLine>, i: nat, line: CartLine, f: CartLine -> int)
    requires i < |cart|
    ensures SumOf(cart[i := line], f) == SumOf(cart, f) - f(cart[i]) + f(line)
  {
    assert cart == cart[..i] + [cart[i]] + cart[i + 1..];
    assert cart[i := line] == cart[..i] + [line] + cart[i + 1..];
    SumConcat(cart[..i] + [cart[i]], cart[i + 1..], f);
    SumConcat(cart[..i] + [line], cart[i + 1..], f);
    SumConcat(cart[..i], [cart[i]], f);
    SumConcat(cart[..i], [line], f);
    assert SumOf([cart[i]], f) == f(cart[i]) by { assert [cart[i]][..0] == []; }
    assert SumOf([line], f) == f(line) by { assert [line][..0] == []; }
  }

  /** Appending a line adds its term to the sum. */
  lemma SumAppend(cart: seq<CartLine>, line: CartLine, f: CartLine -> int)
    ensures SumOf(cart + [line], f) == SumOf(cart, f) + f(line)
  {
    assert (cart + [line])[..|cart|] == cart;
  }

  // ---------------------------------------------------------------------------
  // The cart operations on values
  // ---------------------------------------------------------------------------

  /** Line `i` with its quantity set to `q`, the other lines untouched. */
  function WithQuantity(cart: seq<CartLine>, i: nat, q: int): seq<CartLine>
    requires i < |cart|
  {
    cart[i := cart[i].(quantity := q)]
  }

  /** The cart `addToCart(p)` stores: the first line with `p`'s id gains 1, otherwise a new
      line is appended. */
  function Added(cart: seq<CartLine>, p: Product): seq<CartLine> {
    match FindIndex(cart, p.id)
    case Some(i) => WithQuantity(cart, i, cart[i].quantity + 1)
    case None => cart + [NewLine(p)]
  }

  function OtherId(id: string): CartLine -> bool {
    (line: CartLine) => line.id != id
  }

  /** The cart `removeFromCart(id)` stores: the lines with another id, in order. */
  function Removed(cart: seq<CartLine>, id: string): seq<CartLine> {
    Seqs.Filter(cart, OtherId(id))
  }

  function Max(a: int, b: int): int {
    if a >= b then a else b
  }

  /** The cart `updateQuantity(id, q)` returns: the first line with that id gets
      `Math.max(1, q)`. */
  function QuantitySet(cart: seq<CartLine>, id: string, q: int): seq<CartLine> {
    match FindIndex(cart, id)
    case Some(i) => WithQuantity(cart, i, Max(1, q))
    case None => cart
  }

  /** Adding a product already in the cart raises that line by exactly 1 and changes
      nothing else, order included. */
  lemma AddedExisting(cart: seq<CartLine>, p: Product, i: nat)
    requires FindIndex(cart, p.id) == Some(i)
    ensures |Added(cart, p)| == |cart|
    ensures Added(cart, p)[i] == cart[i].(quantity := cart[i].quantity + 1)
    ensures forall j :: 0 <= j < |cart| && j != i ==> Added(cart, p)[j] == cart[j]
  {
  }

  /** Adding a new product appends, at the end, a copy of it with quantity 1. */
  lemma AddedNew(cart: seq<CartLine>, p: Product)
    requires forall j :: 0 <= j < |cart| ==> cart[j].id != p.id
    ensures Added(cart, p) == cart + [CartLine(p.id, p.name, p.price, p.imageUrl, 1)]
  {
  }

  /** Adding raises the count by exactly 1, and the total by the price stored in the line
      that was raised (the product's price when the line is new). */
  lemma AddedCountTotal(cart: seq<CartLine>, p: Product)
    ensures Count(Added(cart, p)) == Count(cart) + 1
    ensures FindIndex(cart, p.id).None? ==> Total(Added(cart, p)) == Total(cart) + p.price
    ensures FindIndex(cart, p.id).Some? ==>
              Total(Added(cart, p)) == Total(cart) + cart[FindIndex(cart, p.id).value].price
  {
    match FindIndex(cart, p.id)
    case Some(i) => IncrementedSums(cart, i);
    case None =>
      SumAppend(cart, NewLine(p), Quantity);
      SumAppend(cart, NewLine(p), LineTotal);
  }

  /** Raising line `i` by one raises the count by 1 and the total by that line's price. */
  lemma IncrementedSums(cart: seq<CartLine>, i: nat)
    requires i < |cart|
    ensures Count(WithQuantity(cart, i, cart[i].quantity + 1)) == Count(cart) + 1
    ensures Total(WithQuantity(cart, i, cart[i].quantity + 1)) == Total(cart) + cart[i].price
  {
    var line := cart[i].(quantity := cart[i].quantity + 1);
    SumReplace(cart, i, line, Quantity);
    SumReplace(cart, i, line, LineTotal);
    assert LineTotal(line) == LineTotal(cart[i]) + cart[i].price by {
      assert cart[i].price * (cart[i].quantity + 1) == cart[i].price * cart[i].quantity + cart[i].price;
    }
  }

  /** When the stored lines carry the product's current price, adding raises the total by
      exactly that price. */
  lemma AddedTotalAtCurrentPrice(cart: seq<CartLine>, p: Product)
    requires forall j :: 0 <= j < |cart| && cart[j].id == p.id ==> cart[j].price == p.price
    ensures Total(Added(cart, p)) == Total(cart) + p.price
  {
    AddedCountTotal(cart, p);
  }

  /** Adding keeps ids unique and quantities at least 1. */
  lemma AddedValid(cart: seq<CartLine>, p: Product)
    requires ValidCart(cart)
    ensures ValidCart(Added(cart, p))
  {
  }

  /** `n` successive `addToCart(p)` calls. */
  function AddedTimes(cart: seq<CartLine>, p: Product, n: nat): seq<CartLine> {
    if n == 0 then cart else Added(AddedTimes(cart, p, n - 1), p)
  }

  /** Adding the same new product `n` times leaves exactly one line for it, at the end, whose
      quantity is `n`. */
  lemma {:induction false} AddedTimesOneLine(cart: seq<CartLine>, p: Product, n: nat)
    requires n >= 1
    requires forall j :: 0 <= j < |cart| ==> cart[j].id != p.id
    ensures AddedTimes(cart, p, n) == cart + [NewLine(p).(quantity := n)]
  {
    if n > 1 {
      AddedTimesOneLine(cart, p, n - 1);
      var before := cart + [NewLine(p).(quantity := n - 1)];
      var found := FindIndex(before, p.id);
      assert before[|cart|].id == p.id;
      assert found == Some(|cart|);
      assert WithQuantity(before, |cart|, n) == cart + [NewLine(p).(quantity := n)];
    }
  }

  /** Removing keeps exactly the lines with another id, each as often as the cart holds it,
      in their order. */
  lemma RemovedLines(cart: seq<CartLine>, id: string)
    ensures forall j :: 0 <= j < |Removed(cart, id)| ==> Removed(cart, id)[j].id != id
    ensures forall j :: 0 <= j < |cart| && cart[j].id != id ==> cart[j] in Removed(cart, id)
    ensures forall l :: multiset(Removed(cart, id))[l] == if l.id != id then multiset(cart)[l] else 0
    ensures Seqs.IsSubsequence(Removed(cart, id), cart)
  {
    Seqs.FilterIsSubsequence(cart, OtherId(id));
    Seqs.FilterCount(cart, OtherId(id));
  }

  /** Removing twice is removing once, and removing an absent id changes nothing. */
  lemma RemovedIdempotent(cart: seq<CartLine>, id: string)
    ensures Removed(Removed(cart, id), id) == Removed(cart, id)
    ensures FindIndex(cart, id).None? ==> Removed(cart, id) == cart
  {
    Seqs.FilterAll(Removed(cart, id), OtherId(id));
    if FindIndex(cart, id).None? {
      Seqs.FilterAll(cart, OtherId(id));
    }
  }

  /** Removing keeps ids unique and quantities at least 1. */
  lemma {:induction false} RemovedValid(cart: seq<CartLine>, id: string)
    requires ValidCart(cart)
    ensures ValidCart(Removed(cart, id))
  {
    if cart != [] {
      var head, tail := cart[0], cart[1..];
      assert cart == [head] + tail;
      assert ValidCart(tail) by {
        assert forall j :: 0 <= j < |tail| ==> tail[j] == cart[j + 1];
      }
      RemovedValid(tail, id);
      var rest := Removed(tail, id);
      Seqs.FilterCons(head, tail, OtherId(id));
      if head.id != id {
        forall j | 0 <= j < |rest| ensures rest[j].id != head.id {
          var k :| 0 <= k < |tail| && tail[k] == rest[j];
          assert cart[k + 1] == rest[j];
        }
        ConsValid(head, rest);
      }
    }
  }

  /** A line with a new id and a positive quantity put in front of a valid cart. */
  lemma ConsValid(line: CartLine, rest: seq<CartLine>)
    requires ValidCart(rest) && line.quantity >= 1
    requires forall j :: 0 <= j < |rest| ==> rest[j].id != line.id
    ensures ValidCart([line] + rest)
  {
    var cart := [line] + rest;
    forall i, j | 0 <= i < j < |cart| ensures cart[i].id != cart[j].id {
      if i == 0 {
        assert cart[j] == rest[j - 1];
      } else {
        assert cart[i] == rest[i - 1] && cart[j] == rest[j - 1];
      }
    }
  }

  /** Updating sets the matching line to at least 1 and leaves the other lines; an absent
      id changes nothing. */
  lemma QuantitySetLines(cart: seq<CartLine>, id: string, q: int)
    ensures |QuantitySet(cart, id, q)| == |cart|
    ensures FindIndex(cart, id).None? ==> QuantitySet(cart, id, q) == cart
    ensures FindIndex(cart, id).Some? ==>
              var i := FindIndex(cart, id).value;
              && QuantitySet(cart, id, q)[i] == cart[i].(quantity := if q >= 1 then q else 1)
              && forall j :: 0 <= j < |cart| && j != i ==> QuantitySet(cart, id, q)[j] == cart[j]
  {
  }

  /** Updating keeps ids unique and quantities at least 1, whatever quantity is asked for. */
  lemma QuantitySetValid(cart: seq<CartLine>, id: string, q: int)
    requires ValidCart(cart)
    ensures ValidCart(QuantitySet(cart, id, q))
  {
  }

  // ---------------------------------------------------------------------------
  // The store
  // ---------------------------------------------------------------------------

  /** `CartManager`: `storage` is what the browser holds under the cart's key, `None` when
      the key is absent. Reads and writes go through `getCart` and `saveCart`. */
  class CartManager {
    var storage: Option<seq<CartLine>>

    constructor (stored: Option<seq<CartLine>>)
      ensures storage == stored
    {
      storage := stored;
    }

    /** `getCart`: the stored cart, or the empty cart when nothing is stored. */
    function GetCart(): (cart: seq<CartLine>)
      reads this
      ensures storage.None? ==> cart == []
      ensures storage.Some? ==> cart == storage.value
    {
      match storage
      case None => []
      case Some(stored) => stored
    }

    method SaveCart(cart: seq<CartLine>)
      modifies this
      ensures storage == Some(cart)
    {
      storage := Some(cart);
    }

    method AddToCart(p: Product) returns (cart: seq<CartLine>)
      modifies this
      ensures cart == Added(old(GetCart()), p) && storage == Some(cart)
      ensures Count(GetCart()) == old(Count(GetCart())) + 1
      ensures ValidCart(old(GetCart())) ==> ValidCart(GetCart())
    {
      cart := GetCart();
      var existing := FindIndex(cart, p.id);
      if existing.Some? {
        var i := existing.value;
        cart := cart[i := cart[i].(quantity := cart[i].quantity + 1)];
      } else {
        cart := cart + [CartLine(p.id, p.name, p.price, p.imageUrl, 1)];
      }
      SaveCart(cart);
      AddedCountTotal(old(GetCart()), p);
      if ValidCart(old(GetCart())) {
        AddedValid(old(GetCart()), p);
      }
    }

    method RemoveFromCart(id: string) returns (cart: seq<CartLine>)
      modifies this
      ensures cart == Removed(old(GetCart()), id) && storage == Some(cart)
      ensures ValidCart(old(GetCart())) ==> ValidCart(GetCart())
    {
      cart := GetCart();
      cart := Seqs.Filter(cart, OtherId(id));
      SaveCart(cart);
      if ValidCart(old(GetCart())) {
        RemovedValid(old(GetCart()), id);
      }
    }

    /** Saves only when a line matches; otherwise the storage is left as it was. */
    method UpdateQuantity(id: string, quantity: int) returns (cart: seq<CartLine>)
      modifies this
      ensures cart == QuantitySet(old(GetCart()), id, quantity)
      ensures FindIndex(old(GetCart()), id).Some? ==> storage == Some(cart)
      ensures FindIndex(old(GetCart()), id).None? ==> storage == old(storage)
      ensures ValidCart(old(GetCart())) ==> ValidCart(GetCart())
    {
      cart := GetCart();
      var item := FindIndex(cart, id);
      if item.Some? {
        var i := item.value;
        cart := cart[i := cart[i].(quantity := Max(1, quantity))];
        SaveCart(cart);
      }
      if ValidCart(old(GetCart())) {
        QuantitySetValid(old(GetCart()), id, quantity);
      }
    }

    /** Removes the key itself; the cart then reads as empty with count 0. */
    method ClearCart()
      modifies this
      ensures storage.None?
      ensures GetCart() == [] && Count(GetCart()) == 0 && Total(GetCart()) == 0
    {
      storage := None;
    }
  }

  // ---------------------------------------------------------------------------
  // The cart page
  // ---------------------------------------------------------------------------

  datatype Summary = Summary(subtotal: int, shipping: int, total: int)

  /** `updateCartSummary`: flat shipping on a non-empty cart, added to the subtotal. */
  function CartSummary(cart: seq<CartLine>): (s: Summary)
    ensures s.subtotal == Total(cart)
    ensures s.shipping == SHIPPING_COST <==> cart != []
    ensures s.shipping == 0 <==> cart == []
    ensures s.total == s.subtotal + s.shipping
  {
    var subtotal := Total(cart);
    var shipping := if |cart| > 0 then SHIPPING_COST else 0;
    Summary(subtotal, shipping, subtotal + shipping)
  }

  /** After adding a new product the summary's total grows by its price, plus the shipping
      charge when the cart was empty before. */
  lemma SummaryAfterAdd(cart: seq<CartLine>, p: Product)
    requires forall j :: 0 <= j < |cart| ==> cart[j].id != p.id
    ensures CartSummary(Added(cart, p)).total
            == CartSummary(cart).total + p.price + (if cart == [] then SHIPPING_COST else 0)
  {
    AddedCountTotal(cart, p);
  }

  /** The quantity the +/- buttons ask for. */
  function Requested(quantity: int, action: string): int {
    if action == INCREASE then quantity + 1 else quantity - 1
  }

  /** What `handleQuantityChange` saves, `None` when it saves nothing: an unknown id and a
      drop to zero that is not confirmed both leave the storage alone. */
  function QuantityChange(cart: seq<CartLine>, id: string, action: string, confirmed: bool)
    : Option<seq<CartLine>>
  {
    match FindIndex(cart, id)
    case None => None
    case Some(i) =>
      var q := Requested(cart[i].quantity, action);
      if q > 0 then Some(QuantitySet(cart, id, q))
      else if confirmed then Some(Removed(cart, id))
      else None
  }

  /** On a valid cart: "increase" raises the line by 1, "decrease" lowers it by 1 while it
      stays above 0, a drop to 0 removes the line only when confirmed, and an unknown id is
      a no-op. The cart stays valid. */
  lemma QuantityChangeOutcome(cart: seq<CartLine>, id: string, action: string, confirmed: bool)
    requires ValidCart(cart)
    ensures FindIndex(cart, id).None? ==> QuantityChange(cart, id, action, confirmed).None?
    ensures FindIndex(cart, id).Some? ==>
              var i := FindIndex(cart, id).value;
              var q := Requested(cart[i].quantity, action);
              && (q > 0 ==> QuantityChange(cart, id, action, confirmed) == Some(WithQuantity(cart, i, q)))
              && (action == INCREASE ==> q > 0 && Count(WithQuantity(cart, i, q)) == Count(cart) + 1)
              && (action != INCREASE && q > 0 ==> Count(WithQuantity(cart, i, q)) == Count(cart) - 1)
              && (q <= 0 && confirmed ==> QuantityChange(cart, id, action, confirmed) == Some(Removed(cart, id)))
              && (q <= 0 && !confirmed ==> QuantityChange(cart, id, action, confirmed).None?)
    ensures QuantityChange(cart, id, action, confirmed).Some? ==>
              ValidCart(QuantityChange(cart, id, action, confirmed).value)
  {
    match FindIndex(cart, id)
    case None =>
    case Some(i) =>
      var q := Requested(cart[i].quantity, action);
      SumReplace(cart, i, cart[i].(quantity := q), Quantity);
      if q <= 0 && confirmed {
        RemovedValid(cart, id);
      }
  }

  /** A decrease to zero that is confirmed leaves no line with that id. */
  lemma ConfirmedDropRemovesLine(cart: seq<CartLine>, id: string)
    requires ValidCart(cart) && FindIndex(cart, id).Some?
    requires cart[FindIndex(cart, id).value].quantity == 1
    ensures QuantityChange(cart, id, "decrease", true).Some?
    ensures forall line :: line in QuantityChange(cart, id, "decrease", true).value ==> line.id != id
  {
    RemovedLines(cart, id);
  }

  method HandleQuantityChange(c: CartManager, id: string, action: string, confirmed: bool)
    modifies c
    ensures var change := QuantityChange(old(c.GetCart()), id, action, confirmed);
            c.storage == if change.Some? then Some(change.value) else old(c.storage)
  {
    var cart := c.GetCart();
    var found := FindIndex(cart, id);
    if found.None? {
      return;
    }
    var item := cart[found.value];
    var newQuantity := if action == INCREASE then item.quantity + 1 else item.quantity - 1;
    if newQuantity > 0 {
      var _ := c.UpdateQuantity(id, newQuantity);
    } else if confirmed {
      var _ := c.RemoveFromCart(id);
    }
  }

  /** The trash button: removes the line only when the dialog is confirmed. */
  method HandleDeleteItem(c: CartManager, id: string, confirmed: bool)
    modifies c
    ensures confirmed ==> c.storage == Some(Removed(old(c.GetCart()), id))
    ensures !confirmed ==> c.storage == old(c.storage)
  {
    if confirmed {
      var _ := c.RemoveFromCart(id);
    }
  }

  /** The clear button: removes the stored cart only when the dialog is confirmed. */
  method HandleClearCart(c: CartManager, confirmed: bool)
    modifies c
    ensures confirmed ==> c.storage.None?
    ensures !confirmed ==> c.storage == old(c.storage)
  {
    if confirmed {
      c.ClearCart();
    }
  }
}
