/** Message shapes shared by the gateway and the inventory service. */
module Wire {
  import opened Js

  /** One element of a request's `items` array, `{productId, quantity}`;
      either property may be absent. */
  datatype Item = Item(productId: Option<string>, quantity: Option<int>)

  /** The per-item test `!productId || !quantity` fails: both are present and
      truthy, so an empty id and a zero quantity are refused while a negative
      quantity passes. */
  predicate HasFields(item: Item)
  {
    TruthyString(item.productId) && TruthyInt(item.quantity)
  }

  /** One element of the inventory check's `items` reply. The check never
      sets `price`; the gateway reads it all the same, so it is kept here as
      a property that may be absent. */
  datatype CheckEntry = CheckEntry(
    productId: string,
    name: Option<string>,
    requested: Option<int>,
    available: bool,
    inStock: Option<int>,
    price: Option<int>,
    message: Option<string>)
}
