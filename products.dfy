/** A product record as the dashboard reads it from the record store. */
module Products {
  import opened Js

  datatype Product = Product(
    title: string,
    price: JsNumber,         // USD sale price
    sold: JsNumber,          // units sold
    rating: JsNumber,
    costPrice: JsNumber,     // `cost_price`, USD
    postageCost: JsNumber,   // `postage_cost`, USD
    costPriceMyr: JsNumber,  // `cost_price_myr`
    costPriceUsd: JsNumber,  // `cost_price_usd`
    exchangeRate: JsNumber,  // `exchange_rate`
    supplierLink: Option<string>,
    supplierName: Option<string>,
    notes: Option<string>,
    createdAt: real)         // `created_at`, as the time `new Date(...)` parses it to

  /** `sold` can take part in a consistent comparison: it is a number or null. */
  predicate SoldComparable(p: Product) {
    ToNumber(p.sold).Some?
  }

  /** `sold` as the comparator `b.sold - a.sold` reads it. */
  function SoldNumber(p: Product): real {
    ToNumber(p.sold).GetOr(0.0)
  }
}
