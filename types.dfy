/** Record shapes of the catalogue: listings ("properties") and categories (types.ts). */
module Types {

  /** The conventional optional value. */
  datatype Option<+T> = None | Some(value: T)

  /** 'sale' | 'rent' */
  datatype ListingType = Sale | Rent

  /** 'available' | 'sold' | 'rented' */
  datatype Status = Available | Sold | Rented

  /** One listing. `image` is the thumbnail, `images` the carousel (at most five when
      created through the admin form). `beds`, `baths` and `sqft` are plain numbers. */
  datatype Property = Property(
    id: string,
    title: string,
    price: string,
    location: string,
    beds: int,
    baths: int,
    sqft: int,
    image: string,
    images: seq<string>,
    kind: ListingType,
    status: Status,
    featured: bool,
    category: string,
    description: string)

  /** A named group of listings; listings refer to it by `name`, not by `id`. */
  datatype Category = Category(id: string, name: string, image: string)
}
