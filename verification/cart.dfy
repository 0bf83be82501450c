/** The line a page hands to the cart store's `addItem`, and reads back from
    the store's `items`. The store itself (merging, clamping, persistence,
    the cross-restaurant policy) is not part of this model. */
module Cart {
  import opened Common

  datatype CartLine = CartLine(
    id: string,
    name: string,
    price: real,
    quantity: int,
    restaurantId: string,
    restaurantName: string,
    category: Option<string>)
}
