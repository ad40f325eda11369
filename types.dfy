/** The catalog's record shapes and the static brand table. */
module Types {
  import opened Wrappers

  /** A catalog entry. Prices and ratings are JavaScript numbers. */
  datatype Product = Product(
    id: int,
    name: string,
    brand: string,
    model: string,
    price: real,
    originalPrice: Option<real>,
    rating: real,
    reviews: int,
    image: string,
    inStock: bool,
    popular: bool,
    category: string)

  datatype CarBrand = CarBrand(name: string, models: int, image: string)

  /** The brand tiles and dropdown entries, in display order. */
  const CarBrands: seq<CarBrand> := [
    CarBrand("BMW", 145, "https://aislike.rs/Jastuci/new-bmw-logo.avif"),
    CarBrand("Mercedes", 132, "https://aislike.rs/Jastuci/images.png"),
    CarBrand("Land Rover", 118, "https://aislike.rs/Jastuci/land rover.png"),
    CarBrand("Audi", 95, "https://aislike.rs/Jastuci/Audi Logo on Black.jpeg"),
    CarBrand("Porsche", 87, "https://aislike.rs/Jastuci/HD-wallpaper-porsche-911-audi-bmw-car-germany-mercedes-benz-sports-car.jpg")
  ]
}
