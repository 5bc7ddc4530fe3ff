/** Value types shared by the views: roles, languages, stores,
    products, cart entries and the logged-in user. */
module Types {

  datatype Option<T> = None | Some(value: T)

  datatype UserRole = Customer | ShopOwner | DeliveryPartner | Admin

  datatype Language = English | Tamil

  datatype Category = Grocery | Medical | Hotel | Other

  /** A store; the image URL is presentation only and is not kept. */
  datatype Store = Store(
    id: string,
    name: string,
    tamilName: string,
    category: Category,
    rating: real,
    isApproved: bool,
    ownerId: string)

  /** A product; the image URL and the optional description are not kept. */
  datatype Product = Product(
    id: string,
    storeId: string,
    name: string,
    tamilName: string,
    price: int,
    stock: int)

  datatype CartItem = CartItem(productId: string, quantity: int)

  /** One row of the translation table. */
  datatype Translation = Translation(en: string, ta: string)

  /** The record handed to the application's login callback. */
  datatype User = User(name: string, role: UserRole)
}
