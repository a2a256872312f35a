/** The catalogue entries (`PRODUCTS` in the application): an id, a name and a description. */
module Products {

  datatype Product = Product(id: int, name: string, description: string)

  /** The catalogue convention the search relies on: the product at position `i` has id
      `i + 1`. */
  predicate Numbered(catalog: seq<Product>) {
    forall i :: 0 <= i < |catalog| ==> catalog[i].id == i + 1
  }
}
