// The Product schema: field constraints as a validity predicate.

module ProductModel {
  import opened Common

  /** The free-form `details` object (sizes, fabric, ...). */
  type Details = map<string, string>

  const EmptyDetails: Details := map[]

  /** Prices are integer cents, so the schema minimum 0.01 is one cent. */
  const MinPrice: int := 1

  datatype Product = Product(
    shopId: Id,
    name: string,
    description: string,
    category: string,
    price: int,
    costPrice: int,
    stockQuantity: int,
    details: Details)

  /**
   * What the schema validators demand of every field but the stock: required
   * non-empty text, a price of at least one cent and a cost that is not negative.
   */
  predicate ValidListing(p: Product) {
    && p.name != ""
    && p.description != ""
    && p.category != ""
    && p.price >= MinPrice
    && p.costPrice >= 0
  }

  /** What the schema validators demand of a stored product, stock `min: 0` included. */
  predicate ValidProduct(p: Product) {
    ValidListing(p) && p.stockQuantity >= 0
  }
}
