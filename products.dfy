/** A catalog product as the static catalog delivers it. Prices, popularity and ratings are
    whole numbers here. */
module Products {
  datatype Product = Product(
    id: string,
    name: string,
    price: int,
    imageUrl: string,
    blocks: seq<string>,   // placement tags such as "Top Best Sets"
    size: string,
    color: string,
    category: string,
    salesStatus: bool,
    popularity: int,
    rating: int)
}
