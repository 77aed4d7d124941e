/** The Product entity and the table that holds it. */
module Products {
  import opened Wrappers
  import opened ProductFields

  /** A product's primary key, a UUID assigned by the database. */
  type Id = string

  /** A creation time, as the database records it. */
  type Timestamp = int

  datatype Product = Product(
    id: Id,
    name: string,
    price: real,
    description: Option<string>,
    quantity: int,
    category: string,
    createdAt: Timestamp)

  /** The product table, keyed by id. */
  type Store = map<Id, Product>

  /** What the service keeps true of one product under each variant of
      the field rules. */
  predicate ValidProduct(variant: Variant, p: Product) {
    && StoredName(variant, p.name)
    && p.price >= MinPrice
    && p.quantity >= 1
    && StoredCategory(variant, p.category)
  }

  /** Every row is filed under its own id and satisfies the invariants. */
  predicate ValidStore(variant: Variant, store: Store) {
    forall k :: k in store ==> store[k].id == k && ValidProduct(variant, store[k])
  }
}
