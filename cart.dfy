/** The cart page (src/pages/Cart/AddToCartPage.jsx): quantity steppers
    clamped at 1, item removal, the two totals and the view choice between
    sign-in panel, empty state and item list. Prices are integer cents. */
module Cart {
  import opened Lists

  datatype CartItem = CartItem(id: int, title: string, priceCents: int, quantity: int)

  /** The fixed discount line, 25.00. */
  const DiscountCents := 2500

  function Max(a: int, b: int): int { if a < b then b else a }

  /** `items.map(item => item.id === id ? { ...item, quantity: Math.max(1, item.quantity + change) } : item)`. */
  function UpdatedQuantities(items: seq<CartItem>, id: int, change: int): (r: seq<CartItem>)
    ensures |r| == |items|
    ensures forall i :: 0 <= i < |items| ==>
              r[i].id == items[i].id && r[i].title == items[i].title && r[i].priceCents == items[i].priceCents
    ensures forall i :: 0 <= i < |items| && items[i].id != id ==> r[i] == items[i]
    ensures forall i :: 0 <= i < |items| && items[i].id == id ==>
              r[i].quantity == Max(1, items[i].quantity + change)
  {
    if items == [] then []
    else
      var head := if items[0].id == id then items[0].(quantity := Max(1, items[0].quantity + change)) else items[0];
      [head] + UpdatedQuantities(items[1..], id, change)
  }

  /** Every quantity is at least 1. */
  predicate QuantitiesPositive(items: seq<CartItem>) {
    forall i :: 0 <= i < |items| ==> items[i].quantity >= 1
  }

  /** The stepper never takes a quantity below 1, and "-" on a quantity of 1 leaves it at 1. */
  lemma UpdateKeepsQuantitiesPositive(items: seq<CartItem>, id: int, change: int)
    requires QuantitiesPositive(items)
    ensures QuantitiesPositive(UpdatedQuantities(items, id, change))
    ensures forall i :: 0 <= i < |items| && items[i].id == id && items[i].quantity == 1 && change == -1 ==>
              UpdatedQuantities(items, id, change)[i].quantity == 1
  {
  }

  /** The test `item => item.id !== id`. */
  function OtherId(id: int): CartItem -> bool {
    (item: CartItem) => item.id != id
  }

  /** `items.filter(item => item.id !== id)`. */
  function RemovedItem(items: seq<CartItem>, id: int): (r: seq<CartItem>)
    ensures forall x :: x in r ==> x.id != id
    ensures forall x :: x in items && x.id != id ==> x in r
    ensures forall x :: x in r ==> x in items
    ensures IsSubseq(r, items)
  {
    FilterIsSubseq(OtherId(id), items);
    Filter(OtherId(id), items)
  }

  function Quantity(item: CartItem): int { item.quantity }
  function LinePrice(item: CartItem): int { item.priceCents * item.quantity }

  /** `getTotalItems`: the sum of the quantities. */
  function TotalItems(items: seq<CartItem>): int {
    SumOf(Quantity, items)
  }

  /** `getTotalPrice`: the sum of price times quantity, in cents. */
  function TotalPrice(items: seq<CartItem>): int {
    SumOf(LinePrice, items)
  }

  /** The displayed total: the subtotal minus 25.00, with no clamp at zero. */
  function DisplayedTotal(items: seq<CartItem>): (r: int)
    ensures r + DiscountCents == TotalPrice(items)
  {
    TotalPrice(items) - DiscountCents
  }

  /** Each item counts at least once in the item total. */
  lemma TotalItemsAtLeastCount(items: seq<CartItem>)
    requires QuantitiesPositive(items)
    ensures TotalItems(items) >= |items|
  {
    SumOfNonNegative(Quantity, items, 1);
  }

  /** Two lists equal except at position k have sums that differ by the change at k. */
  lemma {:induction false} SumOfPointUpdate<T>(f: T -> int, s: seq<T>, t: seq<T>, k: nat)
    requires |s| == |t| && k < |s|
    requires forall i :: 0 <= i < |s| && i != k ==> s[i] == t[i]
    ensures SumOf(f, t) == SumOf(f, s) - f(s[k]) + f(t[k])
  {
    if k > 0 {
      SumOfPointUpdate(f, s[1..], t[1..], k - 1);
    } else {
      assert s[1..] == t[1..];
    }
  }

  /** Ids are unique within the cart. */
  predicate UniqueIds(items: seq<CartItem>) {
    forall i, j :: 0 <= i < j < |items| ==> items[i].id != items[j].id
  }

  /** With unique ids, a step on item k moves the item total by the clamped change
      and the subtotal by the price of that change. */
  lemma UpdateTotals(items: seq<CartItem>, k: nat, change: int)
    requires UniqueIds(items) && k < |items|
    ensures var r := UpdatedQuantities(items, items[k].id, change);
            var q := Max(1, items[k].quantity + change);
            TotalItems(r) == TotalItems(items) - items[k].quantity + q &&
            TotalPrice(r) == TotalPrice(items) + items[k].priceCents * (q - items[k].quantity)
  {
    var r := UpdatedQuantities(items, items[k].id, change);
    SumOfPointUpdate(Quantity, items, r, k);
    SumOfPointUpdate(LinePrice, items, r, k);
  }

  /** With unique ids, removing item k takes its line price off the subtotal and its quantity off the count. */
  lemma RemoveTotals(items: seq<CartItem>, k: nat)
    requires UniqueIds(items) && k < |items|
    ensures var r := RemovedItem(items, items[k].id);
            |r| == |items| - 1 &&
            TotalPrice(r) == TotalPrice(items) - LinePrice(items[k]) &&
            TotalItems(r) == TotalItems(items) - items[k].quantity
  {
    FilterDropsOne(OtherId(items[k].id), items, k);
    SumOfWithout(LinePrice, items, k);
    SumOfWithout(Quantity, items, k);
  }

  datatype View = SignInPanel | EmptyCart | ItemList

  /** Signed out shows the sign-in panel; signed in, the empty state or the items. */
  function CurrentView(isLoggedIn: bool, items: seq<CartItem>): (r: View)
    ensures r == SignInPanel <==> !isLoggedIn
    ensures r == EmptyCart <==> isLoggedIn && |items| == 0
    ensures r == ItemList <==> isLoggedIn && |items| > 0
  {
    if !isLoggedIn then SignInPanel else if |items| == 0 then EmptyCart else ItemList
  }

  /** The items the page starts with. */
  const InitialItems: seq<CartItem> := [
    CartItem(1, "Advanced React Development", 8999, 1),
    CartItem(2, "Machine Learning Fundamentals", 11999, 2),
    CartItem(3, "UI/UX Design Masterclass", 7499, 1)
  ]

  /** The shipped cart: 4 items, subtotal 404.96, displayed total 379.96. */
  lemma InitialTotals()
    ensures TotalItems(InitialItems) == 4
    ensures TotalPrice(InitialItems) == 40496
    ensures DisplayedTotal(InitialItems) == 37996
  {
  }

  /** A cart whose subtotal is below 25.00 shows a negative total. */
  lemma DisplayedTotalCanBeNegative()
    ensures DisplayedTotal([CartItem(9, "x", 999, 1)]) == -1501
  {
  }

  /** The page's state and its handlers. */
  class CartPage {
    var isLoggedIn: bool
    var cartItems: seq<CartItem>

    constructor ()
      ensures !isLoggedIn && cartItems == InitialItems
      ensures Valid()
    {
      isLoggedIn := false;
      cartItems := InitialItems;
    }

    /** Quantities stay at or above 1 and ids stay unique. */
    predicate Valid()
      reads this
    {
      QuantitiesPositive(cartItems) && UniqueIds(cartItems)
    }

    function View(): View
      reads this
    {
      CurrentView(isLoggedIn, cartItems)
    }

    /** The sign-in button: logs in without looking at any input. */
    method SignIn()
      modifies this`isLoggedIn
      ensures isLoggedIn
    {
      isLoggedIn := true;
    }

    /** `updateQuantity(id, change)`. */
    method UpdateQuantity(id: int, change: int)
      requires Valid()
      modifies this`cartItems
      ensures Valid()
      ensures cartItems == UpdatedQuantities(old(cartItems), id, change)
    {
      UpdateKeepsQuantitiesPositive(cartItems, id, change);
      cartItems := UpdatedQuantities(cartItems, id, change);
    }

    /** `removeItem(id)`. */
    method RemoveItem(id: int)
      requires Valid()
      modifies this`cartItems
      ensures Valid()
      ensures cartItems == RemovedItem(old(cartItems), id)
    {
      var r := RemovedItem(cartItems, id);
      RemovedKeepsValid(cartItems, id);
      cartItems := r;
    }
  }

  lemma {:induction false} RemovedKeepsValid(items: seq<CartItem>, id: int)
    requires QuantitiesPositive(items) && UniqueIds(items)
    ensures QuantitiesPositive(RemovedItem(items, id)) && UniqueIds(RemovedItem(items, id))
  {
    var r := RemovedItem(items, id);
    assert forall x :: x in r ==> x in items;
    forall i | 0 <= i < |r| ensures r[i].quantity >= 1 {
      assert r[i] in items;
    }
    SubseqUniqueIds(r, items);
  }

  lemma {:induction false} SubseqUniqueIds(a: seq<CartItem>, b: seq<CartItem>)
    requires IsSubseq(a, b) && UniqueIds(b)
    ensures UniqueIds(a)
    decreases |b|
  {
    if a != [] {
      assert b != [];
      assert UniqueIds(b[1..]) by {
        forall i, j | 0 <= i < j < |b[1..]| ensures b[1..][i].id != b[1..][j].id {
          assert b[1..][i] == b[i + 1] && b[1..][j] == b[j + 1];
        }
      }
      if a[0] == b[0] && IsSubseq(a[1..], b[1..]) {
        SubseqUniqueIds(a[1..], b[1..]);
        SubseqMembers(a[1..], b[1..]);
        forall j | 0 < j < |a| ensures a[0].id != a[j].id {
          assert a[j] == a[1..][j - 1];
          assert a[j] in a[1..];
          var m :| 0 <= m < |b[1..]| && b[1..][m] == a[j];
          assert b[m + 1] == a[j];
        }
        forall i, j | 0 <= i < j < |a| ensures a[i].id != a[j].id {
          if i > 0 {
            assert a[i] == a[1..][i - 1] && a[j] == a[1..][j - 1];
          }
        }
      } else {
        SubseqUniqueIds(a, b[1..]);
      }
    }
  }
}
