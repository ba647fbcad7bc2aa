/** The fixed product catalogue of the storefront: three jackets, never mutated. */
module Catalog {

  /** A catalogue entry; a cart item has exactly the same shape. */
  datatype Product = Product(id: nat, name: string, price: nat, image: string)

  const BlackPuffer: Product :=
    Product(1, "Black Puffer Jacket", 120, "https://via.placeholder.com/300x400?text=Black+Puffer+Jacket")
  const NavyPuffer: Product :=
    Product(2, "Navy Puffer Jacket", 110, "https://via.placeholder.com/300x400?text=Navy+Puffer+Jacket")
  const RedPuffer: Product :=
    Product(3, "Red Puffer Jacket", 130, "https://via.placeholder.com/300x400?text=Red+Puffer+Jacket")

  /** The catalogue in display order (the grid renders the cards in this order). */
  const Products: seq<Product> := [BlackPuffer, NavyPuffer, RedPuffer]

  /** True when every item of `items` is a catalogue entry. */
  predicate AllFromCatalogue(items: seq<Product>)
  {
    forall i :: 0 <= i < |items| ==> items[i] in Products
  }

  /** Catalogue identifiers are pairwise distinct, so a card is determined by its id. */
  lemma IdsDistinct()
    ensures forall i, j :: 0 <= i < j < |Products| ==> Products[i].id != Products[j].id
  {
  }

  /** Every catalogue price lies between the cheapest (110) and the dearest (130) jacket. */
  lemma PriceRange(p: Product)
    requires p in Products
    ensures 110 <= p.price <= 130
  {
  }
}
