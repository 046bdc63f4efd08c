/**
 * The menu page's cart (client/pages/Menu.tsx): the pure updaters behind
 * "Add", the +/- buttons and the remove button, the running total, the
 * search-and-category filter, and the checks made when the order is saved.
 */
module Cart {
  import opened Common
  import opened Text
  import opened Menu
  import opened Payload
  import OrderStore

  /** A cart line: a menu entry and how many of it are ordered. */
  datatype CartItem = CartItem(item: MenuItem, quantity: int)

  /** The checkout form. */
  datatype GuestDetails = GuestDetails(
    guestName: string, roomNo: string, notes: string, tableChoice: string, paymentMode: string)

  /** The form as first shown and as reset after a successful save. */
  const BlankGuestDetails: GuestDetails := GuestDetails("", "", "", "Room", "Paid at checkout")

  // ---------------------------------------------------------------------
  // Cart updaters
  // ---------------------------------------------------------------------

  /** Some line of the cart is for menu entry `id` (`prev.find`). */
  predicate HasLine(cart: seq<CartItem>, id: string)
  {
    exists i | 0 <= i < |cart| :: cart[i].item.id == id
  }

  /** Every line with id `id` gets `f` applied to its quantity; other lines are kept as they are. */
  function MapLines(cart: seq<CartItem>, id: string, f: int -> int): (r: seq<CartItem>)
    ensures |r| == |cart|
    ensures forall k | 0 <= k < |cart| ::
              r[k].item == cart[k].item
              && r[k].quantity == if cart[k].item.id == id then f(cart[k].quantity) else cart[k].quantity
  {
    seq(|cart|, k requires 0 <= k < |cart| =>
      if cart[k].item.id == id then CartItem(cart[k].item, f(cart[k].quantity)) else cart[k])
  }

  /** `addToCart`: one more of an entry already in the cart, otherwise a new line of one at the end. */
  function CartAdd(cart: seq<CartItem>, item: MenuItem): seq<CartItem>
  {
    if HasLine(cart, item.id) then MapLines(cart, item.id, q => q + 1)
    else cart + [CartItem(item, 1)]
  }

  /** The map branch of `updateQuantity`: every line for `id` is set to `quantity`. */
  function SetQuantity(cart: seq<CartItem>, id: string, quantity: int): seq<CartItem>
  {
    MapLines(cart, id, _ => quantity)
  }

  /** `removeFromCart`: drop every line for `id`, keep the rest in order. */
  function CartRemove(cart: seq<CartItem>, id: string): seq<CartItem>
  {
    if cart == [] then []
    else
      var last := cart[|cart| - 1];
      CartRemove(cart[..|cart| - 1], id) + (if last.item.id != id then [last] else [])
  }

  /** `updateQuantity`: a quantity of zero or less removes the line. */
  function CartUpdate(cart: seq<CartItem>, id: string, quantity: int): seq<CartItem>
  {
    if quantity <= 0 then CartRemove(cart, id) else SetQuantity(cart, id, quantity)
  }

  /** `cartTotal`: Σ price × quantity, reduced from the first line on. */
  function CartTotal(cart: seq<CartItem>): int
  {
    if cart == [] then 0
    else
      var last := cart[|cart| - 1];
      CartTotal(cart[..|cart| - 1]) + last.item.price * last.quantity
  }

  /** No two lines are for the same menu entry. */
  ghost predicate UniqueLines(cart: seq<CartItem>)
  {
    forall i, j | 0 <= i < j < |cart| :: cart[i].item.id != cart[j].item.id
  }

  /** Every line has a positive quantity. */
  ghost predicate PositiveQuantities(cart: seq<CartItem>)
  {
    forall i | 0 <= i < |cart| :: cart[i].quantity > 0
  }

  // ---------------------------------------------------------------------
  // Properties of the updaters
  // ---------------------------------------------------------------------

  /**
   * Adding an entry already in the cart raises that line's quantity by one
   * and adds no line; adding a new entry appends a line of one at the end.
   * Either way the cart keeps one line per entry and positive quantities.
   */
  lemma CartAddEffect(cart: seq<CartItem>, item: MenuItem)
    ensures var r := CartAdd(cart, item);
      && (HasLine(cart, item.id) ==>
            && |r| == |cart|
            && forall k | 0 <= k < |cart| :: r[k].item == cart[k].item
                 && r[k].quantity == cart[k].quantity + (if cart[k].item.id == item.id then 1 else 0))
      && (!HasLine(cart, item.id) ==> r == cart + [CartItem(item, 1)])
      && (UniqueLines(cart) ==> UniqueLines(r))
      && (PositiveQuantities(cart) ==> PositiveQuantities(r))
  {
  }

  /** Σ price over the lines for `id`. */
  function LinePrices(cart: seq<CartItem>, id: string): int
  {
    if cart == [] then 0
    else
      var last := cart[|cart| - 1];
      LinePrices(cart[..|cart| - 1], id) + (if last.item.id == id then last.item.price else 0)
  }

  /** Raising each line for `id` by one raises the total by the prices of those lines. */
  lemma {:induction false} IncrementTotal(cart: seq<CartItem>, id: string)
    ensures CartTotal(MapLines(cart, id, q => q + 1)) == CartTotal(cart) + LinePrices(cart, id)
  {
    if cart != [] {
      var n := |cart| - 1;
      IncrementTotal(cart[..n], id);
      var r := MapLines(cart, id, q => q + 1);
      assert r[..n] == MapLines(cart[..n], id, q => q + 1);
    }
  }

  /** With one line per entry, the prices of the lines for `id` are the price of that single line. */
  lemma {:induction false} SingleLinePrice(cart: seq<CartItem>, id: string, price: int)
    requires UniqueLines(cart) && HasLine(cart, id)
    requires forall k | 0 <= k < |cart| && cart[k].item.id == id :: cart[k].item.price == price
    ensures LinePrices(cart, id) == price
  {
    var n := |cart| - 1;
    if cart[n].item.id == id {
      NoLinePrice(cart[..n], id);
    } else {
      var i :| 0 <= i < |cart| && cart[i].item.id == id;
      assert cart[..n][i].item.id == id;
      SingleLinePrice(cart[..n], id, price);
    }
  }

  lemma {:induction false} NoLinePrice(cart: seq<CartItem>, id: string)
    requires !HasLine(cart, id)
    ensures LinePrices(cart, id) == 0
  {
    if cart != [] {
      var n := |cart| - 1;
      assert !HasLine(cart[..n], id) by {
        forall i | 0 <= i < n ensures cart[..n][i].item.id != id {
          assert cart[..n][i] == cart[i];
        }
      }
      NoLinePrice(cart[..n], id);
    }
  }

  /**
   * Adding an entry raises the total by exactly its price, provided a line
   * already in the cart for the same id has the same price (the cart is
   * filled from one catalog whose ids are distinct).
   */
  lemma CartAddTotal(cart: seq<CartItem>, item: MenuItem)
    requires UniqueLines(cart)
    requires forall k | 0 <= k < |cart| && cart[k].item.id == item.id :: cart[k].item.price == item.price
    ensures CartTotal(CartAdd(cart, item)) == CartTotal(cart) + item.price
  {
    if HasLine(cart, item.id) {
      IncrementTotal(cart, item.id);
      SingleLinePrice(cart, item.id, item.price);
    } else {
      var r := cart + [CartItem(item, 1)];
      assert r[..|r| - 1] == cart;
    }
  }

  /**
   * A quantity of zero or less is the same as removing the line; a positive
   * quantity changes only the quantity of the lines for `id`.
   */
  lemma CartUpdateEffect(cart: seq<CartItem>, id: string, quantity: int)
    ensures quantity <= 0 ==> CartUpdate(cart, id, quantity) == CartRemove(cart, id)
    ensures quantity > 0 ==> var r := CartUpdate(cart, id, quantity);
      && |r| == |cart|
      && forall k | 0 <= k < |cart| ::
           if cart[k].item.id == id then r[k] == CartItem(cart[k].item, quantity) else r[k] == cart[k]
  {
  }

  /**
   * Removing keeps exactly the lines for other entries, in their original
   * order: none for `id` is left, every other line stays, and the result is a
   * subsequence of the cart.
   */
  lemma {:induction false} CartRemoveEffect(cart: seq<CartItem>, id: string)
    ensures var r := CartRemove(cart, id);
      && (forall x :: x in r <==> x in cart && x.item.id != id)
      && IsSubsequence(r, cart)
  {
    if cart != [] {
      var n := |cart| - 1;
      var rest := CartRemove(cart[..n], id);
      CartRemoveEffect(cart[..n], id);
      assert cart == cart[..n] + [cart[n]];
      var r := CartRemove(cart, id);
      if cart[n].item.id != id {
        assert r[..|r| - 1] == rest;
      } else {
        assert r == rest;
        SubsequenceExtend(rest, cart[..n], cart[n]);
      }
    }
  }

  /** Updating keeps one line per entry and positive quantities. */
  lemma {:induction false} CartUpdateKeepsInvariant(cart: seq<CartItem>, id: string, quantity: int)
    requires UniqueLines(cart) && PositiveQuantities(cart)
    ensures UniqueLines(CartUpdate(cart, id, quantity)) && PositiveQuantities(CartUpdate(cart, id, quantity))
  {
    if quantity <= 0 {
      CartRemoveKeepsInvariant(cart, id);
    }
  }

  lemma {:induction false} CartRemoveKeepsInvariant(cart: seq<CartItem>, id: string)
    requires UniqueLines(cart) && PositiveQuantities(cart)
    ensures UniqueLines(CartRemove(cart, id)) && PositiveQuantities(CartRemove(cart, id))
  {
    if cart != [] {
      var n := |cart| - 1;
      assert UniqueLines(cart[..n]) && PositiveQuantities(cart[..n]);
      CartRemoveKeepsInvariant(cart[..n], id);
      var rest := CartRemove(cart[..n], id);
      if cart[n].item.id != id {
        CartRemoveEffect(cart[..n], id);
        forall x | x in rest ensures x.item.id != cart[n].item.id {
          var i :| 0 <= i < n && cart[..n][i] == x;
        }
        AppendLineKeepsInvariant(rest, cart[n]);
      }
    }
  }

  /** A line for an entry not yet in the cart, with a positive quantity, keeps the invariant. */
  lemma AppendLineKeepsInvariant(cart: seq<CartItem>, line: CartItem)
    requires UniqueLines(cart) && PositiveQuantities(cart)
    requires line.quantity > 0
    requires forall x | x in cart :: x.item.id != line.item.id
    ensures UniqueLines(cart + [line]) && PositiveQuantities(cart + [line])
  {
    var r := cart + [line];
    forall i, j | 0 <= i < j < |r|
      ensures r[i].item.id != r[j].item.id
    {
      if j == |cart| {
        assert r[i] == cart[i] && cart[i] in cart;
      }
    }
  }

  // ---------------------------------------------------------------------
  // The menu filter and the category buttons
  // ---------------------------------------------------------------------

  /**
   * The `filteredMenu` predicate: the name matches the search and the category
   * the selection; a `null` or `""` selection selects nothing.
   */
  predicate Visible(item: MenuItem, searchTerm: string, selected: Option<string>)
  {
    && Contains(Lower(item.name), Lower(searchTerm))
    && (!OrderStore.Truthy(selected) || item.category == selected.value)
  }

  /** `menu.filter(...)`: the visible entries, in menu order. */
  function FilterMenu(menu: seq<MenuItem>, searchTerm: string, selected: Option<string>): seq<MenuItem>
  {
    if menu == [] then []
    else
      var last := menu[|menu| - 1];
      FilterMenu(menu[..|menu| - 1], searchTerm, selected) + (if Visible(last, searchTerm, selected) then [last] else [])
  }

  /**
   * An entry is shown iff it is on the menu and visible; the shown entries
   * keep the menu order.
   */
  lemma {:induction false} FilterMenuEffect(menu: seq<MenuItem>, searchTerm: string, selected: Option<string>)
    ensures var r := FilterMenu(menu, searchTerm, selected);
      && (forall x :: x in r <==> x in menu && Visible(x, searchTerm, selected))
      && IsSubsequence(r, menu)
  {
    if menu != [] {
      var n := |menu| - 1;
      var rest := FilterMenu(menu[..n], searchTerm, selected);
      FilterMenuEffect(menu[..n], searchTerm, selected);
      assert menu == menu[..n] + [menu[n]];
      var r := FilterMenu(menu, searchTerm, selected);
      if Visible(menu[n], searchTerm, selected) {
        assert r[..|r| - 1] == rest;
      } else {
        assert r == rest;
        SubsequenceExtend(rest, menu[..n], menu[n]);
      }
    }
  }

  /** An empty search with no category selected shows the whole menu. */
  lemma {:induction false} FilterMenuShowsAll(menu: seq<MenuItem>)
    ensures FilterMenu(menu, "", None) == menu
  {
    if menu != [] {
      var n := |menu| - 1;
      FilterMenuShowsAll(menu[..n]);
      ContainsEmpty(Lower(menu[n].name));
      assert menu[..n] + [menu[n]] == menu;
    }
  }

  /** The category button: clicking the selected category clears it, any other selects it. */
  function ToggleCategory(selected: Option<string>, name: string): (r: Option<string>)
    ensures r == None <==> selected == Some(name)
    ensures r != None ==> r == Some(name)
  {
    if selected == Some(name) then None else Some(name)
  }

  /** Clicking the same button twice restores the selection iff it was empty or that category. */
  lemma ToggleTwice(selected: Option<string>, name: string)
    ensures ToggleCategory(ToggleCategory(selected, name), name) == selected
            <==> selected == None || selected == Some(name)
  {
  }

  // ---------------------------------------------------------------------
  // Saving the order
  // ---------------------------------------------------------------------

  /** The request lines: one per cart line, `item_key` the entry id and `qty` the quantity. */
  function PayloadLines(cart: seq<CartItem>): (r: seq<PayloadItem>)
    ensures |r| == |cart|
    ensures forall k | 0 <= k < |cart| ::
              r[k] == PayloadItem(cart[k].item.id, cart[k].item.name, cart[k].item.price, cart[k].quantity)
  {
    seq(|cart|, k requires 0 <= k < |cart| =>
      PayloadItem(cart[k].item.id, cart[k].item.name, cart[k].item.price, cart[k].quantity))
  }

  /** The requested total equals the cart total. */
  lemma {:induction false} PayloadLinesTotal(cart: seq<CartItem>)
    ensures PayloadTotal(PayloadLines(cart)) == CartTotal(cart)
  {
    if cart != [] {
      var n := |cart| - 1;
      PayloadLinesTotal(cart[..n]);
      assert PayloadLines(cart)[..n] == PayloadLines(cart[..n]);
    }
  }

  /** The request body of `handleSaveOrder`, refused (`None`) when the guest name or room is empty. */
  function SaveRequest(details: GuestDetails, cart: seq<CartItem>, version: string): (r: Option<OrderPayload>)
    ensures r == None <==> details.guestName == "" || details.roomNo == ""
    ensures r != None ==>
              && r.value.guestName == Some(details.guestName) && r.value.roomNo == Some(details.roomNo)
              && r.value.items == PayloadLines(cart)
  {
    if details.guestName == "" || details.roomNo == "" then None
    else Some(OrderPayload(Some(details.guestName), Some(details.roomNo), Some(details.notes), Some(version),
                           PayloadLines(cart)))
  }

  /**
   * The order the server creates from an accepted save request totals the
   * cart, holds one line per cart line for the same entry and quantity, and
   * keeps the guest's name, room and notes and the page's menu version.
   */
  lemma SavedOrderMatchesCart(
    details: GuestDetails, cart: seq<CartItem>, version: string,
    id: string, orderNo: string, now: OrderStore.Instant, itemIds: seq<string>)
    requires details.guestName != "" && details.roomNo != "" && version != ""
    requires |itemIds| == |cart|
    ensures var payload := SaveRequest(details, cart, version).value;
      var o := OrderStore.NewOrder(id, orderNo, now, payload);
      var items := OrderStore.NewItems(id, itemIds, payload.items);
      && o.total == CartTotal(cart)
      && o.guestName == details.guestName && o.roomNo == details.roomNo
      && o.notes == details.notes
      && o.menuVersion == version
      && |items| == |cart|
      && (forall k | 0 <= k < |cart| ::
            items[k].itemKey == cart[k].item.id && items[k].qty == cart[k].quantity
            && items[k].price == cart[k].item.price)
  {
    var payload := SaveRequest(details, cart, version).value;
    PayloadLinesTotal(cart);
    OrderStore.NewItemsMatchRequest(id, itemIds, payload.items);
  }

  // ---------------------------------------------------------------------
  // The page state
  // ---------------------------------------------------------------------

  /** The state the menu page keeps: the cart, the checkout form and the filter inputs. */
  class MenuPage {
    const menu: seq<MenuItem>
    const selectedVersion: string
    var cart: seq<CartItem>
    var guestDetails: GuestDetails
    var searchTerm: string
    var selectedCategory: Option<string>

    /** One line per entry, positive quantities, and every line drawn from the menu. */
    ghost predicate Valid()
      reads this
    {
      && menu == RestoVersionMenu
      && UniqueLines(cart)
      && PositiveQuantities(cart)
      && forall k | 0 <= k < |cart| :: cart[k].item in menu
    }

    constructor ()
      ensures Valid()
      ensures cart == [] && guestDetails == BlankGuestDetails && searchTerm == "" && selectedCategory == None
      ensures selectedVersion == "RestoVersion"
    {
      menu := RestoVersionMenu;
      selectedVersion := "RestoVersion";
      cart := [];
      guestDetails := BlankGuestDetails;
      searchTerm := "";
      selectedCategory := None;
    }

    /** The "Add" button of a menu entry; the cart total rises by the entry's price. */
    method AddToCart(item: MenuItem)
      requires Valid() && item in menu
      modifies this`cart
      ensures Valid()
      ensures cart == CartAdd(old(cart), item)
      ensures CartTotal(cart) == CartTotal(old(cart)) + item.price
    {
      CatalogWellFormed();
      forall k | 0 <= k < |cart| && cart[k].item.id == item.id ensures cart[k].item.price == item.price {
        var i :| 0 <= i < |menu| && menu[i] == cart[k].item;
        var j :| 0 <= j < |menu| && menu[j] == item;
        assert i == j;
      }
      CartAddTotal(cart, item);
      CartAddEffect(cart, item);
      cart := CartAdd(cart, item);
    }

    /** The +/- buttons: a quantity of zero or less removes the line. */
    method UpdateQuantity(id: string, quantity: int)
      requires Valid()
      modifies this`cart
      ensures Valid()
      ensures cart == CartUpdate(old(cart), id, quantity)
    {
      CartUpdateKeepsInvariant(cart, id, quantity);
      if quantity <= 0 {
        RemoveFromCart(id);
      } else {
        cart := SetQuantity(cart, id, quantity);
      }
    }

    /** The remove button of a cart line. */
    method RemoveFromCart(id: string)
      requires Valid()
      modifies this`cart
      ensures Valid()
      ensures cart == CartRemove(old(cart), id)
    {
      CartRemoveKeepsInvariant(cart, id);
      CartRemoveEffect(cart, id);
      cart := CartRemove(cart, id);
    }

    method SetSearchTerm(term: string)
      modifies this`searchTerm
      ensures searchTerm == term
    {
      searchTerm := term;
    }

    /** A category button. */
    method ClickCategory(name: string)
      modifies this`selectedCategory
      ensures selectedCategory == ToggleCategory(old(selectedCategory), name)
    {
      selectedCategory := ToggleCategory(selectedCategory, name);
    }

    /** The "All Items" button. */
    method ClickAllItems()
      modifies this`selectedCategory
      ensures selectedCategory == None
    {
      selectedCategory := None;
    }

    method SetGuestDetails(details: GuestDetails)
      modifies this`guestDetails
      ensures guestDetails == details
    {
      guestDetails := details;
    }

    /**
     * The validation and body building of `handleSaveOrder`: refused when the
     * guest name or room is empty, otherwise one request line per cart line,
     * totalling the cart total.
     */
    method SaveOrder() returns (request: Option<OrderPayload>)
      ensures request == None <==> guestDetails.guestName == "" || guestDetails.roomNo == ""
      ensures request != None ==>
                && request == SaveRequest(guestDetails, cart, selectedVersion)
                && request.value.menuVersion == Some(selectedVersion)
                && |request.value.items| == |cart|
                && PayloadTotal(request.value.items) == CartTotal(cart)
    {
      PayloadLinesTotal(cart);
      request := SaveRequest(guestDetails, cart, selectedVersion);
    }

    /** After the server accepted the order: the cart and the form are cleared. */
    method OrderSaved()
      requires Valid()
      modifies this`cart, this`guestDetails
      ensures Valid()
      ensures cart == [] && guestDetails == BlankGuestDetails
    {
      cart := [];
      guestDetails := BlankGuestDetails;
    }
  }
}
