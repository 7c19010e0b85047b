/** The records the REST backend hands to the pages. Only the fields that the
    modelled logic reads are kept; prices and stock are whole numbers. */
module Catalog {

  /** A catalogue product (`_id`, `name`, `price`, `stock`, ...). `images` holds
      the `url` of each image object, in order. */
  datatype Product = Product(
    id: string,
    name: string,
    description: string,
    price: int,
    stock: int,
    category: string,
    unit: string,
    images: seq<string>,
    requiresPrescription: bool)

  /** An order as listed to its customer and to the administrator. */
  datatype Order = Order(
    id: string,
    orderNumber: string,
    orderStatus: string,
    totalAmount: int)
}
