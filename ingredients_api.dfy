/** The read endpoint `/api/ingredients`: a GET answers with the records of
    its own static sample that have not expired yet; every other method is
    refused with 405. */
module IngredientsApi {
  import opened Records
  import opened Filtering

  /** The endpoint's sample data, never modified (expiring 2023-06-30,
      2025-07-15 and 2025-07-20). */
  const Ingredients: seq<Ingredient> := [
    Ingredient(1, "Milk", "1L", Day(19538)),
    Ingredient(2, "Eggs", "12", Day(20284)),
    Ingredient(3, "Cheese", "200g", Day(20289))
  ]

  /** What the handler writes to the response. */
  datatype Body = Json(items: seq<Ingredient>) | Text(text: string)

  /** Status code, the values of the `Allow` header (empty when the header is
      not set) and the body. */
  datatype Response = Response(status: int, allow: seq<string>, body: Body)

  /** A record's expiry lies strictly after `now`, the day that holds the
      current instant. The expiry date stands for midnight at the start of its
      day, so it is later than the current instant exactly when its day comes
      after `now`; an empty expiry date is never later than anything. */
  predicate Unexpired(r: Ingredient, now: int)
  {
    r.expiryDate.Day? && r.expiryDate.n > now
  }

  /** The records of `s` that have not expired, in their order. */
  function UnexpiredIngredients(s: seq<Ingredient>, now: int): (r: seq<Ingredient>)
    ensures forall x :: x in r <==> x in s && x.expiryDate.Day? && x.expiryDate.n > now
  {
    Filter(s, (x: Ingredient) => Unexpired(x, now))
  }

  /** The request method as it appears in the error text; an absent method
      reads as "undefined". */
  function MethodText(requestMethod: Option<string>): string
  {
    match requestMethod
    case Some(m) => m
    case None => "undefined"
  }

  /** The handler, with "now" passed in instead of read from the clock. */
  function Handler(requestMethod: Option<string>, now: int): (res: Response)
    ensures res.status == 200 <==> requestMethod == Some("GET")
    ensures res.status == 200 ==>
              res.allow == [] && res.body.Json? &&
              forall x :: x in res.body.items <==> x in Ingredients && x.expiryDate.Day? && x.expiryDate.n > now
    ensures res.status != 200 ==>
              res.status == 405 && res.allow == ["GET"] &&
              res.body == Text("Method " + MethodText(requestMethod) + " Not Allowed")
  {
    if requestMethod == Some("GET") then Response(200, [], Json(UnexpiredIngredients(Ingredients, now)))
    else Response(405, ["GET"], Text("Method " + MethodText(requestMethod) + " Not Allowed"))
  }

  /** A GET answers with a subsequence of the sample: records are dropped,
      never reordered, and those kept are the sample's own. */
  lemma GetKeepsOrder(now: int)
    ensures SubsequenceOf(Handler(Some("GET"), now).body.items, Ingredients)
  {
    FilterIsSubsequence(Ingredients, (x: Ingredient) => Unexpired(x, now));
  }

  /** The unexpired part of a concatenation is the unexpired part of the
      front followed by that of the back. */
  lemma UnexpiredConcat(a: seq<Ingredient>, b: seq<Ingredient>, now: int)
    ensures UnexpiredIngredients(a + b, now) == UnexpiredIngredients(a, now) + UnexpiredIngredients(b, now)
  {
    FilterConcat(a, b, (x: Ingredient) => Unexpired(x, now));
  }

  /** On 2025-01-01 (day 20089) the Milk record, which expired on 2023-06-30,
      is dropped, and Eggs and Cheese are returned in that order. */
  lemma GetOnNewYear2025()
    ensures Handler(Some("GET"), 20089) == Response(200, [], Json([Ingredients[1], Ingredients[2]]))
  {
    var keep := (x: Ingredient) => Unexpired(x, 20089);
    assert Ingredients == [Ingredients[0]] + [Ingredients[1], Ingredients[2]];
    FilterConcat([Ingredients[0]], [Ingredients[1], Ingredients[2]], keep);
    FilterDropsAll([Ingredients[0]], keep);
    FilterKeepsAll([Ingredients[1], Ingredients[2]], keep);
  }

  /** A method in lower case is not GET. */
  lemma LowerCaseGetRefused(now: int)
    ensures Handler(Some("get"), now) == Response(405, ["GET"], Text("Method get Not Allowed"))
  {
  }
}
