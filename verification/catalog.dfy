/** The two mock product tables of `src/pages/Index.tsx`: the products a
    barcode scan can find, keyed by barcode, and the eco alternatives they
    point to, keyed by id. Prices are held in cents and carbon footprints
    in grams of CO2, so that all arithmetic on them is exact. */
module Catalog {

  /** The `ecoRating` of a product or cart line. */
  datatype EcoRating = High | Medium | Low

  /** A catalogue entry. A scannable product lists the ids of its eco
      alternatives; an eco alternative lists none and is flagged
      `isEcoAlternative`. */
  datatype Product = Product(
    id: string,
    name: string,
    price: nat,
    carbon: nat,
    rating: EcoRating,
    alternatives: seq<string>,
    isEcoAlternative: bool)

  /** `PRODUCT_DATABASE`: barcode to product. */
  const ProductDatabase: map<string, Product> := map[
    "012345678901" := Product("1", "Regular Laundry Detergent", 899, 3200, Low, ["2", "3"], false),
    "123456789012" := Product("4", "Organic Whole Milk", 499, 1800, High, [], false),
    "234567890123" := Product("5", "White Bread", 249, 2100, Medium, ["6"], false),
    "345678901234" := Product("7", "Eco-Friendly Dish Soap", 699, 800, High, [], false),
    "456789012345" := Product("8", "Regular Shampoo", 799, 2500, Low, ["9"], false)
  ]

  /** `ECO_ALTERNATIVES`: id to alternative product. */
  const EcoAlternatives: map<string, Product> := map[
    "2" := Product("2", "Plant-Based Laundry Pods", 1299, 1200, High, [], true),
    "3" := Product("3", "Concentrated Eco Detergent", 999, 1800, High, [], true),
    "6" := Product("6", "Organic Whole Grain Bread", 399, 1100, High, [], true),
    "9" := Product("9", "Sulfate-Free Natural Shampoo", 1199, 1100, High, [], true)
  ]

  /** The alternatives table is keyed by each entry's own id, and every
      alternative is rated `high` and flagged as an eco alternative. */
  lemma AlternativesWellKeyed(i: string)
    requires i in EcoAlternatives
    ensures EcoAlternatives[i].id == i
    ensures EcoAlternatives[i].rating == High && EcoAlternatives[i].isEcoAlternative
  {
  }

  /** Every alternative id a scannable product lists is in the alternatives
      table, and the alternative has a smaller carbon footprint than the
      product it replaces. */
  lemma AlternativesResolve(b: string, k: nat)
    requires b in ProductDatabase && k < |ProductDatabase[b].alternatives|
    ensures ProductDatabase[b].alternatives[k] in EcoAlternatives
    ensures EcoAlternatives[ProductDatabase[b].alternatives[k]].carbon < ProductDatabase[b].carbon
  {
  }
}
