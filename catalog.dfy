/**
 * The static product catalog `PRODUCTS` shared by every page (js/main.js), and
 * the facts about its contents that the listing page relies on.
 */
module Catalog {

  /** The fields of a catalog record that the cart and the listing logic read: identifier,
      display name, category token, price, original price (0 would mean "no discount"),
      star rating and review count. */
  datatype Product = Product(id: int, name: string, cat: string, price: int, oldPrice: int,
                             rating: int, reviews: int)

  /** The display-only fields of a record: image URL and description. */
  datatype Media = Media(img: string, desc: string)

  /** The six category tokens the catalog uses. */
  const CATEGORIES: set<string> := {"headphones", "chargers", "covers", "powerbank", "display", "battery"}

  const PRODUCTS: seq<Product> := [
    Product(1, "Sony WH-1000XM5", "headphones", 8999, 12999, 5, 214),
    Product(2, "65W GaN Fast Charger", "chargers", 1299, 1999, 4, 89),
    Product(3, "Armor Phone Case", "covers", 399, 699, 4, 156),
    Product(4, "20000mAh Power Bank", "powerbank", 1499, 2499, 5, 302),
    Product(5, "TWS Earbuds Pro", "headphones", 1999, 3499, 4, 178),
    Product(6, "OLED Display Screen", "display", 2499, 3999, 4, 67),
    Product(7, "Braided USB-C Cable", "chargers", 299, 499, 5, 421),
    Product(8, "Slim 10000mAh PD Bank", "powerbank", 999, 1799, 4, 93),
    Product(9, "XB900 Premium Headphones", "headphones", 4499, 8999, 5, 128),
    Product(10, "100W Super Fast Charger", "chargers", 1099, 1999, 5, 256),
    Product(11, "360° Protection Cover", "covers", 299, 499, 4, 89),
    Product(12, "Anker 26800mAh Power Bank", "powerbank", 1949, 2999, 5, 312),
    Product(13, "Li-Ion 4500mAh Battery", "battery", 799, 1299, 4, 54),
    Product(14, "Wireless Charger Pad", "chargers", 699, 1199, 4, 112),
    Product(15, "Clear Transparent Cover", "covers", 199, 349, 3, 67),
    Product(16, "IPS Display Replacement", "display", 1899, 2999, 4, 38)
  ]

  /** `img` and `desc` of the record at the same position of PRODUCTS. */
  const MEDIA: seq<Media> := [
    Media("https://images.unsplash.com/photo-1505740420928-5e560c06d30e?w=600&h=500&fit=crop&auto=format",
          "Industry-leading noise cancellation. 30-hour battery life. Crystal clear calls."),
    Media("https://images.unsplash.com/photo-1583863788434-e58a36330cf0?w=600&h=500&fit=crop&auto=format",
          "Compact GaN technology. Charges laptop, phone, tablet simultaneously."),
    Media("https://images.unsplash.com/photo-1601972602237-8c79241e468b?w=600&h=500&fit=crop&auto=format",
          "Military-grade drop protection. Slim profile with raised camera bezels."),
    Media("https://images.unsplash.com/photo-1609592806596-b12f6bde1c78?w=600&h=500&fit=crop&auto=format",
          "Massive capacity with dual USB + USB-C PD output. LED charge indicator."),
    Media("https://images.unsplash.com/photo-1590658268037-6bf12165a8df?w=600&h=500&fit=crop&auto=format",
          "Active noise cancellation with 8-hour playtime + 24hr case."),
    Media("https://images.unsplash.com/photo-1601784551446-20c9e07cdbdb?w=600&h=500&fit=crop&auto=format",
          "High-resolution OLED replacement panel. True-color display technology."),
    Media("https://images.unsplash.com/photo-1598300042247-d088f8ab3a91?w=600&h=500&fit=crop&auto=format",
          "Premium nylon-braided cable. Supports 100W fast charging. 1.5m length."),
    Media("https://images.unsplash.com/photo-1585338070-5b2c5f3a5b5b?w=600&h=500&fit=crop&auto=format",
          "Ultra-slim 10000mAh with 18W PD. Airline-friendly portable design."),
    Media("https://images.unsplash.com/photo-1505740420928-5e560c06d30e?w=600&h=500&fit=crop&auto=format",
          "Extra bass deep sound with 35-hour battery. Foldable design."),
    Media("https://images.unsplash.com/photo-1583863788434-e58a36330cf0?w=600&h=500&fit=crop&auto=format",
          "100W USB-C PD charging. GaN technology. Compact travel charger."),
    Media("https://images.unsplash.com/photo-1601972602237-8c79241e468b?w=600&h=500&fit=crop&auto=format",
          "Full-body 360° protection case with tempered glass screen protector."),
    Media("https://images.unsplash.com/photo-1609592806596-b12f6bde1c78?w=600&h=500&fit=crop&auto=format",
          "Massive 26800mAh with triple ports. Charge 3 devices simultaneously."),
    Media("https://images.unsplash.com/photo-1609592806596-b12f6bde1c78?w=600&h=500&fit=crop&auto=format",
          "High-capacity Li-Ion replacement battery. 500+ charge cycle life."),
    Media("https://images.unsplash.com/photo-1583863788434-e58a36330cf0?w=600&h=500&fit=crop&auto=format",
          "15W max wireless charging. Compatible with all Qi-enabled devices."),
    Media("https://images.unsplash.com/photo-1601972602237-8c79241e468b?w=600&h=500&fit=crop&auto=format",
          "Ultra-thin crystal clear TPU case. Anti-yellowing technology."),
    Media("https://images.unsplash.com/photo-1601784551446-20c9e07cdbdb?w=600&h=500&fit=crop&auto=format",
          "Full HD IPS LCD replacement. Touch digitizer pre-assembled.")
  ]

  /** Identifiers run 1, 2, ..., 16 in catalog order, so they are unique. */
  lemma CatalogIds()
    ensures |PRODUCTS| == |MEDIA| == 16
    ensures forall i :: 0 <= i < |PRODUCTS| ==> PRODUCTS[i].id == i + 1
    ensures forall i, j :: 0 <= i < j < |PRODUCTS| ==> PRODUCTS[i].id != PRODUCTS[j].id
  {
  }

  /** Every entry is sold at a positive price no higher than its original price,
      has a rating between 0 and 5, and belongs to one of the six categories. */
  lemma CatalogEntriesSound()
    ensures forall i :: 0 <= i < |PRODUCTS| ==>
      0 < PRODUCTS[i].price <= PRODUCTS[i].oldPrice && 0 <= PRODUCTS[i].rating <= 5 &&
      PRODUCTS[i].cat in CATEGORIES
  {
  }

  /** The dearest record costs 8999, well under the listing page's default bound. */
  lemma CatalogPrices()
    ensures forall i :: 0 <= i < |PRODUCTS| ==> PRODUCTS[i].price <= 8999
    ensures exists i :: 0 <= i < |PRODUCTS| && PRODUCTS[i].price == 8999
  {
    assert PRODUCTS[0].price == 8999;
  }
}
