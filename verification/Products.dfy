/** The product that the caches of lab 21 hold. */
module Products {
  datatype Product = Product(id: nat, publicId: string, name: string, priceCents: int)
}
