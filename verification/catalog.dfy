/**
  Products and cart lines, and the static catalog the home page renders.
  A cart line carries a copy of every product field plus a quantity.
 */
module Catalog {

  /** An immutable catalog entry. Prices are exact currency amounts. */
  datatype Product = Product(
    id: int,
    name: string,
    price: real,
    description: string,
    image: string,
    categories: seq<string>)

  /** A cart line: the product's fields plus a quantity. */
  datatype Line = Line(product: Product, quantity: int)
  {
    function Id(): int { product.id }
  }

  /** A category filter button: `id` is what the filter compares against. */
  datatype Category = Category(id: string, name: string)

  const PastelDreamText: string :=
    "A soft and dreamy arrangement of pastel roses, ranunculus, and seasonal foliage. Perfect for birthdays or just because."
  const ElegantWhiteText: string :=
    "Inspired by cottage gardens, this lush arrangement features garden roses, dahlias, and wildflowers."
  const WildGardenText: string :=
    "A sophisticated all-white arrangement featuring lilies, roses, and delicate texture. Perfect for weddings or formal events."
  const SummerSunsetText: string :=
    "Warm-toned blooms in sunset hues of orange, coral, and peach. Captures the essence of long summer evenings."
  const VerdantBlissText: string :=
    "A texture-rich arrangement featuring unusual foliage, ferns, and architectural flowers. Modern and statement-making."
  /** The description the last four products share. */
  const SignatureText: string :=
    "Our smaller signature arrangement, perfect for office desks or compact spaces. Changes seasonally."

  const PastelDream: Product :=
    Product(1, "Pastel Dream", 65.0, PastelDreamText, "/sc1.png", ["bestseller", "birthday", "congratulations"])
  const ElegantWhite: Product :=
    Product(2, "Elegant White", 75.0, ElegantWhiteText, "/sc2.png", ["premium", "anniversary", "congratulations"])
  const WildGarden: Product :=
    Product(3, "Wild Garden", 85.0, WildGardenText, "/sc3.png", ["wedding"])
  const SummerSunset: Product :=
    Product(4, "Summer Sunset", 65.0, SummerSunsetText, "/sc4.png", ["bestseller", "congratulations"])
  const VerdantBliss: Product :=
    Product(5, "Verdant Bliss", 70.0, VerdantBlissText, "/sc5.png", ["premium", "house-warming"])
  const PetitePosy: Product :=
    Product(6, "Petite Posy", 45.0, SignatureText, "/sc6.png", ["bestseller", "congratulations", "birthday"])
  const ExoticDream: Product :=
    Product(7, "Exotic Dream", 95.0, SignatureText, "/sc7.png", ["bestseller", "congratulations", "birthday"])
  const JapaneseSpring: Product :=
    Product(8, "Japanese Spring", 85.0, SignatureText, "/sc8.png", ["bestseller", "congratulations", "birthday"])
  const SummerBloom: Product :=
    Product(9, "Summer Bloom", 100.0, SignatureText, "/sc9.png", ["bestseller", "wedding", "birthday"])

  /** The nine products of the home page, in display order. */
  const Products: seq<Product> := [
    PastelDream, ElegantWhite, WildGarden, SummerSunset, VerdantBliss,
    PetitePosy, ExoticDream, JapaneseSpring, SummerBloom
  ]

  /** The filter buttons; "all" selects the whole catalog. */
  const Categories: seq<Category> := [
    Category("all", "All"),
    Category("bestseller", "Bestsellers"),
    Category("premium", "Premium"),
    Category("birthday", "Birthday"),
    Category("wedding", "Wedding"),
    Category("congratulations", "Congratulations")
  ]

  /** The id of each catalog entry is its one-based position. */
  lemma CatalogIdsArePositions()
    ensures |Products| == 9
    ensures forall k :: 0 <= k < |Products| ==> Products[k].id == k + 1
  {
    var ps := Products;
    assert ps[0].id == 1 && ps[1].id == 2 && ps[2].id == 3;
    assert ps[3].id == 4 && ps[4].id == 5 && ps[5].id == 6;
    assert ps[6].id == 7 && ps[7].id == 8 && ps[8].id == 9;
  }

  /** No two entries share an id. */
  predicate DistinctIds(ps: seq<Product>)
  {
    forall k, l :: 0 <= k < l < |ps| ==> ps[k].id != ps[l].id
  }

  /** The catalog's ids are pairwise distinct and every price is positive. */
  lemma CatalogWellFormed()
    ensures DistinctIds(Products)
    ensures forall k :: 0 <= k < |Products| ==> Products[k].price > 0.0
  {
    CatalogIdsArePositions();
    var ps := Products;
    assert ps[0].price > 0.0 && ps[1].price > 0.0 && ps[2].price > 0.0;
    assert ps[3].price > 0.0 && ps[4].price > 0.0 && ps[5].price > 0.0;
    assert ps[6].price > 0.0 && ps[7].price > 0.0 && ps[8].price > 0.0;
  }
}
