/**
 * The shopping-cart sheet: its items, their subtotal (a left fold over the
 * prices, starting at 0) and removal by product id (a filter). Prices are whole
 * naira, as in the catalog.
 */
module Cart {

  /** The catalog fields the cart uses. */
  datatype Product = Product(id: string, name: string, price: int)

  /** The product catalog, in catalog order. */
  const Catalog: seq<Product> := [
    Product("prod_1", "Royal Adire Silk Kaftan", 95000),
    Product("prod_2", "Grand Aso-Oke Boubou", 280000),
    Product("prod_3", "Embroidered Agbada Set", 250000),
    Product("prod_4", "Modern Lace Iro & Buba", 180000),
    Product("prod_5", "Ankara Print Peplum Top", 45000),
    Product("prod_6", "Ankara Flared Midi Dress", 68000),
    Product("prod_7", "Isiagu Velvet Tunic", 110000),
    Product("prod_8", "Traditional Coral Bead Set", 75000),
    Product("prod_9", "Pre-Styled Auto Gele", 35000),
    Product("prod_10", "Men's Senator Style Suit", 85000),
    Product("prod_11", "Ankara Wide-Leg Trousers", 52000),
    Product("prod_12", "Off-Shoulder Buba Gown", 120000),
    Product("prod_13", "Sequin Embellished Aso Ebi", 220000),
    Product("prod_14", "Classic Dashiki Shirt", 30000)
  ]

  /** `items.reduce((acc, item) => acc + item.price, 0)`, folding from the left. */
  function Subtotal(items: seq<Product>): (r: int)
    ensures items == [] ==> r == 0
    ensures (forall i :: 0 <= i < |items| ==> items[i].price >= 0) ==> r >= 0
  {
    if items == [] then 0 else Subtotal(items[..|items| - 1]) + items[|items| - 1].price
  }

  /** `items.filter(item => item.id !== id)`. */
  function RemoveById(items: seq<Product>, id: string): (r: seq<Product>)
    ensures |r| <= |items|
    ensures forall x :: x in r <==> x in items && x.id != id
  {
    if items == [] then []
    else if items[0].id == id then RemoveById(items[1..], id)
    else [items[0]] + RemoveById(items[1..], id)
  }

  /** The items a removal by `id` drops. */
  function WithId(items: seq<Product>, id: string): (r: seq<Product>)
    ensures forall x :: x in r <==> x in items && x.id == id
  {
    if items == [] then []
    else if items[0].id == id then [items[0]] + WithId(items[1..], id)
    else WithId(items[1..], id)
  }

  /** The subtotal of a concatenation is the sum of the subtotals. */
  lemma {:induction false} SubtotalAppend(s: seq<Product>, t: seq<Product>)
    ensures Subtotal(s + t) == Subtotal(s) + Subtotal(t)
  {
    if t == [] {
      assert s + t == s;
    } else {
      var u := t[..|t| - 1];
      assert (s + t)[..|s + t| - 1] == s + u;
      SubtotalAppend(s, u);
    }
  }

  /** The subtotal of a one-item cart is that item's price. */
  lemma SubtotalSingle(p: Product)
    ensures Subtotal([p]) == p.price
  {
    assert [p][..0] == [];
  }

  /** Removal distributes over concatenation: kept items stay in their original relative order. */
  lemma {:induction false} RemoveAppend(s: seq<Product>, t: seq<Product>, id: string)
    ensures RemoveById(s + t, id) == RemoveById(s, id) + RemoveById(t, id)
  {
    if s == [] {
      assert s + t == t;
    } else {
      assert (s + t)[1..] == s[1..] + t;
      RemoveAppend(s[1..], t, id);
    }
  }

  /** Removing an id that is not in the cart leaves the cart as it was. */
  lemma {:induction false} RemoveAbsent(items: seq<Product>, id: string)
    requires forall x :: x in items ==> x.id != id
    ensures RemoveById(items, id) == items
  {
    if items != [] {
      assert items[0] in items;
      RemoveAbsent(items[1..], id);
      assert items == [items[0]] + items[1..];
    }
  }

  /** Removing the same id twice is removing it once. */
  lemma RemoveIdempotent(items: seq<Product>, id: string)
    ensures RemoveById(RemoveById(items, id), id) == RemoveById(items, id)
  {
    RemoveAbsent(RemoveById(items, id), id);
  }

  /** Removal splits the cart: what is kept and what is dropped together are the old cart. */
  lemma {:induction false} RemovePartition(items: seq<Product>, id: string)
    ensures multiset(items) == multiset(RemoveById(items, id)) + multiset(WithId(items, id))
    ensures Subtotal(items) == Subtotal(RemoveById(items, id)) + Subtotal(WithId(items, id))
  {
    if items != [] {
      var head, rest := items[0], items[1..];
      assert items == [head] + rest;
      RemovePartition(rest, id);
      SubtotalAppend([head], rest);
      SubtotalSingle(head);
      if head.id == id {
        SubtotalAppend([head], WithId(rest, id));
      } else {
        SubtotalAppend([head], RemoveById(rest, id));
      }
    }
  }

  /** The cart sheet's state: the items in the cart. */
  class CartSheet {
    var cartItems: seq<Product>

    /** The cart starts with the first two catalog products. */
    constructor ()
      ensures cartItems == Catalog[..2]
    {
      cartItems := Catalog[..2];
    }

    /** The subtotal shown in the sheet's footer. */
    function CurrentSubtotal(): (r: int)
      reads this
      ensures (forall i :: 0 <= i < |cartItems| ==> cartItems[i].price >= 0) ==> r >= 0
    {
      Subtotal(cartItems)
    }

    /** `handleRemove`: keeps the items whose id differs from `id`. */
    method HandleRemove(id: string)
      modifies this
      ensures cartItems == RemoveById(old(cartItems), id)
      ensures forall x :: x in cartItems ==> x.id != id
      ensures CurrentSubtotal() == old(CurrentSubtotal()) - Subtotal(WithId(old(cartItems), id))
    {
      RemovePartition(cartItems, id);
      cartItems := RemoveById(cartItems, id);
    }
  }

  /** The initial cart holds the kaftan and the boubou, 375000 naira together. */
  lemma InitialCartContents()
    ensures Catalog[..2] == [Catalog[0], Catalog[1]]
    ensures Catalog[0].id == "prod_1" && Catalog[0].price == 95000
    ensures Catalog[1].id == "prod_2" && Catalog[1].price == 280000
    ensures Subtotal(Catalog[..2]) == 375000
  {
    SubtotalAppend([Catalog[0]], [Catalog[1]]);
    SubtotalSingle(Catalog[0]);
    SubtotalSingle(Catalog[1]);
    assert Catalog[..2] == [Catalog[0]] + [Catalog[1]];
  }
}
