/** The plan-list edge function: it joins the active Stripe prices with their
    products and marks the popular plan. The Stripe listings are inputs. */
module GetPlans {
  import opened Common

  datatype Product = Product(id: string, name: string)

  datatype Price = Price(
    id: string, product: string, unitAmount: Option<int>, interval: Option<string>, currency: string)

  /** A plan as the function returns it. */
  datatype Plan = Plan(
    id: string, name: string, amount: Option<int>, interval: Option<string>, currency: string,
    popular: bool, productId: string)

  /** The response: a preflight answer with headers only, the plan list with 200,
      or an error body with 400. */
  datatype Response = Preflight | PlansOk(plans: seq<Plan>) | Failed(error: string)

  const NewProduct: string := "prod_SNyclMOBTiNxdL"
  const SeasonedProduct: string := "prod_SVQriwONif10zJ"
  const ExpertProduct: string := "prod_SVQsv2QIziGtRD"
  const PopularPrice: string := "price_1QTWcJHxZBGV8xKR6hgb8P5m"

  /** `getPlanName`: a lookup keyed by the three product ids, `'Unknown Plan'` otherwise. */
  function GetPlanName(key: string): (r: string)
    ensures key == NewProduct ==> r == "New Freelancer"
    ensures key == SeasonedProduct ==> r == "Seasoned Freelancer"
    ensures key == ExpertProduct ==> r == "Expert Freelancer"
    ensures key !in {NewProduct, SeasonedProduct, ExpertProduct} ==> r == "Unknown Plan"
  {
    if key == NewProduct then "New Freelancer"
    else if key == SeasonedProduct then "Seasoned Freelancer"
    else if key == ExpertProduct then "Expert Freelancer"
    else "Unknown Plan"
  }

  /** `isPopularPlan`. */
  predicate IsPopularPlan(priceId: string) {
    priceId == PopularPrice
  }

  /** Exactly one price id is popular. */
  lemma OnePopularPlan(a: string, b: string)
    requires IsPopularPlan(a) && IsPopularPlan(b)
    ensures a == b && a == PopularPrice
  {
  }

  /** `products.data.find(p => p.id === id)`: the first product with the id. */
  function FindProduct(products: seq<Product>, id: string): (r: Option<Product>)
    ensures r.Some? ==> r.value in products && r.value.id == id
    ensures r.None? <==> forall i :: 0 <= i < |products| ==> products[i].id != id
    ensures r.Some? ==> exists i :: 0 <= i < |products| && products[i] == r.value
                          && (forall j :: 0 <= j < i ==> products[j].id != id)
  {
    if products == [] then None
    else if products[0].id == id then Some(products[0])
    else
      var r := FindProduct(products[1..], id);
      if r.Some? then
        var i :| 0 <= i < |products[1..]| && products[1..][i] == r.value
          && forall j :: 0 <= j < i ==> products[1..][j].id != id;
        assert products[i + 1] == r.value;
        r
      else r
  }

  function ProductName(product: Option<Product>): Option<string> {
    if product.Some? then Some(product.value.name) else None
  }

  /** One price turned into a plan, with `fallback` naming it when its
      product is missing or has an empty name. */
  function ToPlan(price: Price, products: seq<Product>, fallback: string -> string): (r: Plan)
    ensures r.id == price.id && r.productId == price.product && r.popular == IsPopularPlan(price.id)
    ensures r.amount == price.unitAmount && r.interval == price.interval && r.currency == price.currency
  {
    Plan(price.id, OrElse(ProductName(FindProduct(products, price.product)), fallback(price.id)),
         price.unitAmount, price.interval, price.currency, IsPopularPlan(price.id), price.product)
  }

  /** The plan list as written: the fallback name is looked up with the price id. */
  function TransformPlans(prices: seq<Price>, products: seq<Product>): (r: seq<Plan>)
    ensures |r| == |prices|
    ensures forall i :: 0 <= i < |prices| ==>
      && r[i].id == prices[i].id && r[i].productId == prices[i].product
      && r[i].popular == IsPopularPlan(prices[i].id)
      && r[i].name == OrElse(ProductName(FindProduct(products, prices[i].product)), GetPlanName(prices[i].id))
  {
    seq(|prices|, i requires 0 <= i < |prices| => ToPlan(prices[i], products, GetPlanName))
  }

  /** The fallback as written never finds a name for a Stripe price id: the keys are
      product ids (`prod_…`) and a price id starts with `price_`. */
  lemma FallbackNeverNamesAPrice(price: Price, products: seq<Product>)
    requires StartsWith(price.id, "price_")
    requires FindProduct(products, price.product).None?
    ensures TransformPlans([price], products)[0].name == "Unknown Plan"
  {
    assert price.id[3] == "price_"[3] == 'c';
    assert NewProduct[3] == SeasonedProduct[3] == ExpertProduct[3] == 'd';
  }

  /** A concrete case: the New Freelancer price, with its product missing from the
      product listing, is listed as an unknown plan. */
  lemma UnknownPlanExample()
    ensures TransformPlans([Price("price_1RTCfJDBPJVWy5MhqB5gMwWZ", NewProduct, Some(999), Some("month"), "usd")], [])[0].name
         == "Unknown Plan"
  {
    FallbackNeverNamesAPrice(Price("price_1RTCfJDBPJVWy5MhqB5gMwWZ", NewProduct, Some(999), Some("month"), "usd"), []);
  }

  /** The fallback the lookup table is built for: keyed by the price's product. */
  function ToPlanByProduct(price: Price, products: seq<Product>): (r: Plan)
    ensures r.id == price.id && r.productId == price.product && r.popular == IsPopularPlan(price.id)
    ensures r.name == OrElse(ProductName(FindProduct(products, price.product)), GetPlanName(price.product))
  {
    Plan(price.id, OrElse(ProductName(FindProduct(products, price.product)), GetPlanName(price.product)),
         price.unitAmount, price.interval, price.currency, IsPopularPlan(price.id), price.product)
  }

  /** The corrected plan list. */
  function TransformPlansByProduct(prices: seq<Price>, products: seq<Product>): (r: seq<Plan>)
    ensures |r| == |prices|
    ensures forall i :: 0 <= i < |prices| ==> r[i] == ToPlanByProduct(prices[i], products)
  {
    seq(|prices|, i requires 0 <= i < |prices| => ToPlanByProduct(prices[i], products))
  }

  /** With the correction, a price of one of the three known products is named
      after its tier even when the product listing misses it, and the name the
      product listing gives still wins when there is one. */
  lemma CorrectedFallbackNamesKnownProducts(price: Price, products: seq<Product>)
    requires price.product in {NewProduct, SeasonedProduct, ExpertProduct}
    ensures var name := TransformPlansByProduct([price], products)[0].name;
      && (FindProduct(products, price.product).None? ==> name != "Unknown Plan")
      && (Truthy(ProductName(FindProduct(products, price.product))) ==>
            name == FindProduct(products, price.product).value.name)
  {
  }

  /** The request handler as written: a preflight is answered before anything
      is listed, a failed listing gives 400 with its message, and otherwise each
      price is answered with the plan the as-written join gives it. */
  function HandleGetPlans(httpMethod: string, listing: Result<(seq<Product>, seq<Price>)>): (r: Response)
    ensures httpMethod == "OPTIONS" ==> r == Preflight
    ensures httpMethod != "OPTIONS" && listing.Err? ==> r == Failed(listing.message)
    ensures httpMethod != "OPTIONS" && listing.Ok? ==>
      r.PlansOk? && |r.plans| == |listing.value.1|
      && forall i :: 0 <= i < |r.plans| ==> r.plans[i] == ToPlan(listing.value.1[i], listing.value.0, GetPlanName)
  {
    if httpMethod == "OPTIONS" then Preflight
    else if listing.Err? then Failed(listing.message)
    else PlansOk(TransformPlans(listing.value.1, listing.value.0))
  }

  /** The request handler with the corrected plan list. */
  function HandleGetPlansCorrected(httpMethod: string, listing: Result<(seq<Product>, seq<Price>)>): (r: Response)
    ensures httpMethod == "OPTIONS" ==> r == Preflight
    ensures httpMethod != "OPTIONS" && listing.Err? ==> r == Failed(listing.message)
    ensures httpMethod != "OPTIONS" && listing.Ok? ==>
      r.PlansOk? && |r.plans| == |listing.value.1|
      && forall i :: 0 <= i < |r.plans| ==> r.plans[i] == ToPlanByProduct(listing.value.1[i], listing.value.0)
  {
    if httpMethod == "OPTIONS" then Preflight
    else if listing.Err? then Failed(listing.message)
    else PlansOk(TransformPlansByProduct(listing.value.1, listing.value.0))
  }
}
