/** The catalog entities the product endpoints read. */
module Catalog {

  /** A category; products are filtered by its unique `slug`. */
  datatype Category = Category(id: string, name: string, slug: string)

  /** A product as the store returns it with its category joined in. The
      type parameter is the representation of `images`: the serialized text
      held in the store (`ProductRow`) or the decoded list of URLs sent to
      the client (`ProductView`). */
  datatype Product<Img> = Product(
    id: string,
    name: string,
    description: string,
    price: int,
    region: string,
    grapeVariety: string,
    featured: bool,
    createdAt: int,
    category: Category,
    images: Img)

  type ProductRow = Product<string>
  type ProductView = Product<seq<string>>
}
