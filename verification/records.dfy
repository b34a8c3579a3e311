/** The record shapes of the storefront's data layer and its fixed demo catalogue
    (src/lib/supabase.ts). Money is held in integer cents: every catalogue price has
    two decimals, so no binary floating point is needed. */
module Records {
  import opened Wrappers

  /** An amount of money in cents. */
  type Cents = int

  datatype Product = Product(
    id: string,
    name: string,
    category: string,
    price: Cents,
    unit: string,
    stock: int,
    imageUrl: string,
    description: string,
    farmerId: string,
    createdAt: string,
    updatedAt: string)

  /** A cart line. The product snapshot is optional in the record type, so every
      consumer has to say what a missing snapshot means. */
  datatype CartItem = CartItem(
    id: string,
    buyerId: string,
    productId: string,
    quantity: int,
    product: Option<Product>)

  /** A stored order. `status` is any string; only four values have a meaning. */
  datatype Order = Order(
    id: string,
    buyerId: string,
    totalAmount: Cents,
    status: string,
    deliveryAddress: string,
    paymentMethod: string,
    createdAt: string,
    updatedAt: string)

  datatype OrderItem = OrderItem(
    id: string,
    orderId: string,
    productId: string,
    quantity: int,
    priceAtPurchase: Cents,
    product: Option<Product>)

  /** A line's unit price: the snapshot's price, or 0 when the snapshot is missing. */
  function UnitPrice(item: CartItem): (r: Cents)
    ensures item.product.Some? ==> r == item.product.value.price
    ensures item.product.None? ==> r == 0
  {
    match item.product
    case Some(p) => p.price
    case None => 0
  }

  /** No two products share an id. */
  predicate UniqueIds(ps: seq<Product>)
  {
    forall i, j :: 0 <= i < j < |ps| ==> ps[i].id != ps[j].id
  }

  /** The two categories the demo catalogue uses. */
  const Vegetables: string := "vegetables"
  const Fruits: string := "fruits"

  /** The demo catalogue, in source order. Both timestamps of every product are the
      clock reading `now` taken when the module is loaded. */
  function Catalogue(now: string): (r: seq<Product>)
    ensures |r| == 8
  {
    [ Tomatoes(now),
      Carrots(now),
      Lettuce(now),
      Apples(now),
      Bananas(now),
      Strawberries(now),
      Peppers(now),
      Potatoes(now) ]
  }

  function Tomatoes(now: string): Product
  {
    Product("1", "Organic Tomatoes", Vegetables, 299, "kg", 50,
            "https://images.pexels.com/photos/3608401/pexels-photo-3608401.jpeg",
            "Fresh, ripe organic tomatoes sourced directly from local farmers", "farmer1", now, now)
  }

  function Carrots(now: string): Product
  {
    Product("2", "Fresh Carrots", Vegetables, 199, "kg", 60,
            "https://images.pexels.com/photos/2599535/pexels-photo-2599535.jpeg",
            "Crispy orange carrots packed with nutrients", "farmer2", now, now)
  }

  function Lettuce(now: string): Product
  {
    Product("3", "Green Lettuce", Vegetables, 249, "head", 40,
            "https://images.pexels.com/photos/5960606/pexels-photo-5960606.jpeg",
            "Tender green lettuce perfect for salads", "farmer1", now, now)
  }

  function Apples(now: string): Product
  {
    Product("4", "Sweet Apples", Fruits, 399, "kg", 45,
            "https://images.pexels.com/photos/5632533/pexels-photo-5632533.jpeg",
            "Juicy and sweet apples picked fresh", "farmer3", now, now)
  }

  function Bananas(now: string): Product
  {
    Product("5", "Organic Bananas", Fruits, 149, "kg", 70,
            "https://images.pexels.com/photos/65174/pexels-photo-65174.jpeg",
            "Golden ripe bananas full of potassium", "farmer2", now, now)
  }

  function Strawberries(now: string): Product
  {
    Product("6", "Strawberries", Fruits, 499, "kg", 35,
            "https://images.pexels.com/photos/4551832/pexels-photo-4551832.jpeg",
            "Fresh red strawberries loaded with flavor", "farmer1", now, now)
  }

  function Peppers(now: string): Product
  {
    Product("7", "Bell Peppers", Vegetables, 299, "kg", 50,
            "https://images.pexels.com/photos/4287967/pexels-photo-4287967.jpeg",
            "Colorful bell peppers packed with vitamins", "farmer3", now, now)
  }

  function Potatoes(now: string): Product
  {
    Product("8", "Organic Potatoes", Vegetables, 149, "kg", 80,
            "https://images.pexels.com/photos/8947/pexels-photo.jpg",
            "Earthy potatoes ideal for all your cooking needs", "farmer2", now, now)
  }

  /** The catalogue ids '1'..'8' are pairwise distinct, so lookup by id is a function. */
  lemma CatalogueIdsDistinct(now: string)
    ensures UniqueIds(Catalogue(now))
  {
  }

  /** Every catalogue price is positive, and the dearest product costs 4.99. */
  lemma CataloguePrices(now: string)
    ensures forall i :: 0 <= i < |Catalogue(now)| ==> 0 < Catalogue(now)[i].price <= 499
    ensures Catalogue(now)[5].price == 499
  {
    var c := Catalogue(now);
    forall i | 0 <= i < |c| ensures 0 < c[i].price <= 499 {
      assert i in {0, 1, 2, 3, 4, 5, 6, 7};
    }
  }

  /** Every catalogue product has at least 35 units in stock. */
  lemma CatalogueStock(now: string)
    ensures forall i :: 0 <= i < |Catalogue(now)| ==> Catalogue(now)[i].stock >= 35
  {
  }

  /** Only two categories occur in the catalogue. */
  lemma CatalogueCategories(now: string)
    ensures forall i :: 0 <= i < |Catalogue(now)| ==>
              Catalogue(now)[i].category == Vegetables || Catalogue(now)[i].category == Fruits
  {
  }

  /** "vegetables" is the category of the first product and "fruits" first appears
      at position 3, after three vegetables. */
  lemma CatalogueCategoryOrder(now: string)
    ensures Catalogue(now)[0].category == Vegetables
    ensures Catalogue(now)[1].category == Vegetables
    ensures Catalogue(now)[2].category == Vegetables
    ensures Catalogue(now)[3].category == Fruits
  {
  }
}
