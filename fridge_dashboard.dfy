/** The fridge dashboard component: the shelf-life catalog, the rule that
    derives a draft's expiry date from it, and the inventory store with its
    add, refresh and delete handlers. */
module FridgeDashboard {
  import opened Records
  import opened Filtering

  // ---------------------------------------------------------------------
  // Shelf-life catalog
  // ---------------------------------------------------------------------

  /** A known ingredient and how many days it keeps in the fridge. */
  datatype IngredientOption = IngredientOption(name: string, fridgeLife: nat)

  /** The closed catalog of known ingredients. */
  const IngredientOptions: seq<IngredientOption> := [
    IngredientOption("Milk", 7),
    IngredientOption("Eggs", 21),
    IngredientOption("Cheese", 14),
    IngredientOption("Yogurt", 7),
    IngredientOption("Butter", 30),
    IngredientOption("Lettuce", 7),
    IngredientOption("Tomatoes", 7),
    IngredientOption("Chicken", 2),
    IngredientOption("Beef", 3),
    IngredientOption("Fish", 2)
  ]

  /** The first option called `name`, as `Array.prototype.find` returns it. */
  function Find(options: seq<IngredientOption>, name: string): (r: Option<IngredientOption>)
    ensures r.None? <==> forall i :: 0 <= i < |options| ==> options[i].name != name
    ensures r.Some? ==> exists i :: 0 <= i < |options| && options[i] == r.value && r.value.name == name &&
                                   forall j :: 0 <= j < i ==> options[j].name != name
  {
    if options == [] then None
    else if options[0].name == name then Some(options[0])
    else
      var r := Find(options[1..], name);
      assert forall i :: 1 <= i < |options| ==> options[i] == options[1..][i - 1];
      r
  }

  /** Every option has a name and no two options share one. */
  predicate WellNamed(options: seq<IngredientOption>)
  {
    (forall i :: 0 <= i < |options| ==> options[i].name != "") &&
    (forall i, j :: 0 <= i < j < |options| ==> options[i].name != options[j].name)
  }

  /** The catalog is well named. */
  lemma CatalogWellNamed()
    ensures WellNamed(IngredientOptions)
  {
  }

  /** In a well-named list, looking up an option's name finds that option. */
  lemma FindEntry(options: seq<IngredientOption>, i: nat)
    requires WellNamed(options) && i < |options|
    ensures Find(options, options[i].name) == Some(options[i])
  {
  }

  // ---------------------------------------------------------------------
  // The draft of a new record and its derived expiry date
  // ---------------------------------------------------------------------

  /** The add-ingredient form's state. */
  datatype Draft = Draft(name: string, quantity: string, purchaseDate: Date, expiryDate: Date)

  /** The form as it is first shown and after every submit: nothing chosen,
      purchased today, no expiry date. */
  function EmptyDraft(today: int): Draft
  {
    Draft("", "", Day(today), NoDate)
  }

  /** The expiry effect: with a name and a purchase date set and the name in
      the catalog, the expiry becomes the purchase day plus the entry's fridge
      life; otherwise the draft is left as it is. */
  function Derive(options: seq<IngredientOption>, d: Draft): (r: Draft)
    ensures r.name == d.name && r.quantity == d.quantity && r.purchaseDate == d.purchaseDate
  {
    if d.name != "" && d.purchaseDate.Day? then
      match Find(options, d.name)
      case Some(option) => d.(expiryDate := Day(d.purchaseDate.n + option.fridgeLife))
      case None => d
    else d
  }

  /** A catalogued name and a purchase day fix the expiry to that day plus the
      entry's fridge life, whatever expiry the draft held before. */
  lemma DeriveKnown(options: seq<IngredientOption>, d: Draft, i: nat)
    requires WellNamed(options) && i < |options| && d.name == options[i].name
    requires d.purchaseDate.Day?
    ensures Derive(options, d) == d.(expiryDate := Day(d.purchaseDate.n + options[i].fridgeLife))
  {
    FindEntry(options, i);
  }

  /** An empty name, an empty purchase date or an unknown name leaves the draft
      untouched, including an expiry entered by hand. */
  lemma DeriveUnknown(options: seq<IngredientOption>, d: Draft)
    requires d.name == "" || d.purchaseDate == NoDate ||
             forall i :: 0 <= i < |options| ==> options[i].name != d.name
    ensures Derive(options, d) == d
  {
  }

  /** Running the effect twice changes nothing more than running it once. */
  lemma DeriveIdempotent(options: seq<IngredientOption>, d: Draft)
    ensures Derive(options, Derive(options, d)) == Derive(options, d)
  {
  }

  /** Eggs keep for 21 days: bought on day p they expire on day p + 21;
      bought on 2024-01-01 (day 19723) they expire on 2024-01-22 (day 19744). */
  lemma DeriveEggs(quantity: string, p: int, expiry: Date)
    ensures Derive(IngredientOptions, Draft("Eggs", quantity, Day(p), expiry)).expiryDate == Day(p + 21)
    ensures Derive(IngredientOptions, Draft("Eggs", quantity, Day(19723), expiry)).expiryDate == Day(19744)
  {
    CatalogWellNamed();
    DeriveKnown(IngredientOptions, Draft("Eggs", quantity, Day(p), expiry), 1);
    DeriveKnown(IngredientOptions, Draft("Eggs", quantity, Day(19723), expiry), 1);
  }

  /** One change the user makes to the form: choosing a name in the combobox,
      or typing into the quantity, purchase-date or expiry-date input. */
  datatype DraftEdit =
    | SelectName(name: string)
    | SetQuantity(quantity: string)
    | SetPurchaseDate(purchaseDate: Date)
    | SetExpiryDate(expiryDate: Date)

  /** The draft with one field overwritten by the edit. */
  function Apply(d: Draft, e: DraftEdit): Draft
  {
    match e
    case SelectName(n) => d.(name := n)
    case SetQuantity(q) => d.(quantity := q)
    case SetPurchaseDate(p) => d.(purchaseDate := p)
    case SetExpiryDate(x) => d.(expiryDate := x)
  }

  /** The draft once an edit has been rendered: the expiry effect runs when
      the name or the purchase date differs from the value it last saw. */
  function AfterEdit(d: Draft, e: DraftEdit): (r: Draft)
    ensures r.name == Apply(d, e).name && r.quantity == Apply(d, e).quantity
    ensures r.purchaseDate == Apply(d, e).purchaseDate
    ensures Apply(d, e).name != d.name || Apply(d, e).purchaseDate != d.purchaseDate ==>
              r.expiryDate == Derive(IngredientOptions, Apply(d, e)).expiryDate
    ensures Apply(d, e).name == d.name && Apply(d, e).purchaseDate == d.purchaseDate ==>
              r.expiryDate == Apply(d, e).expiryDate
  {
    var edited := Apply(d, e);
    if edited.name != d.name || edited.purchaseDate != d.purchaseDate
    then Derive(IngredientOptions, edited)
    else edited
  }

  /** Choosing a different, catalogued name once a purchase day is set
      re-derives the expiry from that name's fridge life. */
  lemma SelectNameRederives(d: Draft, i: nat)
    requires i < |IngredientOptions| && d.name != IngredientOptions[i].name
    requires d.purchaseDate.Day?
    ensures AfterEdit(d, SelectName(IngredientOptions[i].name)).expiryDate
            == Day(d.purchaseDate.n + IngredientOptions[i].fridgeLife)
  {
    CatalogWellNamed();
    DeriveKnown(IngredientOptions, d.(name := IngredientOptions[i].name), i);
  }

  /** Editing the quantity never touches the expiry. */
  lemma QuantityEditKeepsExpiry(d: Draft, q: string)
    ensures AfterEdit(d, SetQuantity(q)) == d.(quantity := q)
  {
  }

  /** An expiry date typed by hand is kept while name and purchase date stay. */
  lemma ManualExpiryKept(d: Draft, x: Date)
    ensures AfterEdit(d, SetExpiryDate(x)) == d.(expiryDate := x)
  {
  }

  /** ... and is silently overwritten as soon as a new purchase date is entered
      for a catalogued ingredient. */
  lemma ManualExpiryOverwritten(d: Draft, x: Date, i: nat, p: int)
    requires i < |IngredientOptions| && d.name == IngredientOptions[i].name
    requires d.purchaseDate != Day(p)
    ensures AfterEdit(AfterEdit(d, SetExpiryDate(x)), SetPurchaseDate(Day(p))).expiryDate
            == Day(p + IngredientOptions[i].fridgeLife)
  {
    CatalogWellNamed();
    DeriveKnown(IngredientOptions, d.(expiryDate := x, purchaseDate := Day(p)), i);
  }

  /** Resetting the form does not trigger a derived expiry. */
  lemma DeriveEmptyDraft(today: int)
    ensures Derive(IngredientOptions, EmptyDraft(today)) == EmptyDraft(today)
  {
  }

  // ---------------------------------------------------------------------
  // The inventory store's transitions, as values
  // ---------------------------------------------------------------------

  /** The store's initial contents (ids 1, 2, 3; expiring 2023-06-30,
      2023-07-15 and 2023-07-20). */
  const InitialIngredients: seq<Ingredient> := [
    Ingredient(1, "Milk", "1L", Day(19538)),
    Ingredient(2, "Eggs", "12", Day(19553)),
    Ingredient(3, "Cheese", "200g", Day(19558))
  ]

  /** The largest id of a non-empty list (`Math.max` over the ids). */
  function MaxId(s: seq<Ingredient>): (m: int)
    requires |s| > 0
    ensures forall i :: 0 <= i < |s| ==> s[i].id <= m
    ensures exists i :: 0 <= i < |s| && s[i].id == m
  {
    if |s| == 1 then s[0].id
    else
      var rest := MaxId(s[1..]);
      assert forall i :: 1 <= i < |s| ==> s[i] == s[1..][i - 1];
      if s[0].id >= rest then s[0].id else rest
  }

  /** The id the next added record gets: 1 for an empty store, otherwise one
      more than the largest id, hence larger than every id in use. */
  function NextId(s: seq<Ingredient>): (id: int)
    ensures |s| == 0 ==> id == 1
    ensures forall i :: 0 <= i < |s| ==> s[i].id < id
    ensures |s| > 0 ==> exists i :: 0 <= i < |s| && s[i].id + 1 == id
  {
    if |s| > 0 then MaxId(s) + 1 else 1
  }

  /** The store after a submit: one new record at the end, built from the
      draft and carrying a fresh id. */
  function Added(s: seq<Ingredient>, d: Draft): (r: seq<Ingredient>)
    ensures |r| == |s| + 1 && r[..|s|] == s
    ensures r[|s|].id == NextId(s)
    ensures r[|s|].name == d.name && r[|s|].quantity == d.quantity && r[|s|].expiryDate == d.expiryDate
    ensures forall i :: 0 <= i < |s| ==> r[i].id < r[|s|].id
  {
    s + [Ingredient(NextId(s), d.name, d.quantity, d.expiryDate)]
  }

  /** The store after "Refresh Expiry" on `id`: every record with that id now
      expires seven days after today, and nothing else changes. */
  function Refreshed(s: seq<Ingredient>, id: int, today: int): (r: seq<Ingredient>)
    ensures |r| == |s|
    ensures forall i :: 0 <= i < |s| ==>
              r[i].id == s[i].id && r[i].name == s[i].name && r[i].quantity == s[i].quantity
    ensures forall i :: 0 <= i < |s| && s[i].id == id ==> r[i].expiryDate == Day(today + 7)
    ensures forall i :: 0 <= i < |s| && s[i].id != id ==> r[i] == s[i]
  {
    seq(|s|, i requires 0 <= i < |s| =>
      if s[i].id == id then s[i].(expiryDate := Day(today + 7)) else s[i])
  }

  /** The store after "Delete" on `id`: the records with another id, in order. */
  function Without(s: seq<Ingredient>, id: int): (r: seq<Ingredient>)
    ensures forall x :: x in r <==> x in s && x.id != id
  {
    Filter(s, (x: Ingredient) => x.id != id)
  }

  // ---------------------------------------------------------------------
  // Properties of the transitions
  // ---------------------------------------------------------------------

  /** The initial store has distinct ids and its next id is 4. */
  lemma InitialStore()
    ensures UniqueIds(InitialIngredients)
    ensures NextId(InitialIngredients) == 4
  {
    assert MaxId(InitialIngredients) == 3;
  }

  /** Adding keeps the ids distinct. */
  lemma AddedKeepsUniqueIds(s: seq<Ingredient>, d: Draft)
    requires UniqueIds(s)
    ensures UniqueIds(Added(s, d))
  {
    var r := Added(s, d);
    forall i, j | 0 <= i < j < |r| ensures r[i].id != r[j].id {
      if j < |s| {
        assert r[i] == s[i] && r[j] == s[j];
      }
    }
  }

  /** Refreshing an id that no record carries leaves the store as it was. */
  lemma RefreshedAbsent(s: seq<Ingredient>, id: int, today: int)
    requires !HasId(s, id)
    ensures Refreshed(s, id, today) == s
  {
  }

  /** Refreshing keeps the ids, so it keeps them distinct. */
  lemma RefreshedKeepsUniqueIds(s: seq<Ingredient>, id: int, today: int)
    requires UniqueIds(s)
    ensures Ids(Refreshed(s, id, today)) == Ids(s)
    ensures UniqueIds(Refreshed(s, id, today))
  {
  }

  /** Filtering a list with distinct ids leaves the ids distinct. */
  lemma {:induction false} FilterKeepsUniqueIds(s: seq<Ingredient>, keep: Ingredient -> bool)
    requires UniqueIds(s)
    ensures UniqueIds(Filter(s, keep))
  {
    if s != [] {
      var tail := s[1..];
      assert UniqueIds(tail) by {
        forall i, j | 0 <= i < j < |tail| ensures tail[i].id != tail[j].id {
          assert tail[i] == s[i + 1] && tail[j] == s[j + 1];
        }
      }
      FilterKeepsUniqueIds(tail, keep);
      if keep(s[0]) {
        var rest := Filter(tail, keep);
        var r := [s[0]] + rest;
        forall j | 0 <= j < |rest| ensures rest[j].id != s[0].id {
          assert rest[j] in rest;
          assert rest[j] in tail;
          var k :| 0 <= k < |tail| && tail[k] == rest[j];
          assert tail[k] == s[k + 1];
        }
        forall i, j | 0 <= i < j < |r| ensures r[i].id != r[j].id {
          if i == 0 {
            assert r[j] == rest[j - 1];
          } else {
            assert r[i] == rest[i - 1] && r[j] == rest[j - 1];
          }
        }
        assert Filter(s, keep) == r;
      }
    }
  }

  /** Deleting keeps the ids distinct. */
  lemma WithoutKeepsUniqueIds(s: seq<Ingredient>, id: int)
    requires UniqueIds(s)
    ensures UniqueIds(Without(s, id))
  {
    FilterKeepsUniqueIds(s, (x: Ingredient) => x.id != id);
  }

  /** Deleting an id that no record carries leaves the store as it was. */
  lemma WithoutAbsent(s: seq<Ingredient>, id: int)
    requires !HasId(s, id)
    ensures Without(s, id) == s
  {
    FilterKeepsAll(s, (x: Ingredient) => x.id != id);
  }

  /** With distinct ids, deleting the id at position k removes exactly that
      record and keeps the others in order. */
  lemma WithoutRemovesOne(s: seq<Ingredient>, k: nat)
    requires UniqueIds(s) && k < |s|
    ensures Without(s, s[k].id) == s[..k] + s[k + 1..]
    ensures |Without(s, s[k].id)| == |s| - 1
  {
    var id := s[k].id;
    var keep := (x: Ingredient) => x.id != id;
    assert s == s[..k] + ([s[k]] + s[k + 1..]);
    FilterConcat(s[..k], [s[k]] + s[k + 1..], keep);
    FilterConcat([s[k]], s[k + 1..], keep);
    FilterKeepsAll(s[..k], keep);
    FilterKeepsAll(s[k + 1..], keep);
    FilterDropsAll([s[k]], keep);
  }

  // ---------------------------------------------------------------------
  // The component's state
  // ---------------------------------------------------------------------

  /** The dashboard's two pieces of state: the inventory list and the draft
      of the add-ingredient form. */
  class Dashboard {
    var ingredients: seq<Ingredient>
    var newIngredient: Draft

    /** The invariant every handler keeps: ids are pairwise distinct. */
    ghost predicate Valid()
      reads this
    {
      UniqueIds(ingredients)
    }

    /** The state on first render, `today` being the current UTC day. */
    constructor (today: int)
      ensures Valid()
      ensures ingredients == InitialIngredients && newIngredient == EmptyDraft(today)
    {
      ingredients := InitialIngredients;
      newIngredient := EmptyDraft(today);
      InitialStore();
    }

    /** A change to one form field, followed by the expiry effect when the
        name or the purchase date changed. */
    method HandleEdit(e: DraftEdit)
      requires Valid()
      modifies this
      ensures Valid() && ingredients == old(ingredients)
      ensures newIngredient == AfterEdit(old(newIngredient), e)
    {
      var before := newIngredient;
      newIngredient := Apply(newIngredient, e);
      if newIngredient.name != before.name || newIngredient.purchaseDate != before.purchaseDate {
        newIngredient := Derive(IngredientOptions, newIngredient);
      }
    }

    /** Form submission: append a record built from the draft under a fresh
        id, then reset the draft. */
    method HandleSubmit(today: int)
      requires Valid()
      modifies this
      ensures Valid()
      ensures ingredients == Added(old(ingredients), old(newIngredient))
      ensures newIngredient == EmptyDraft(today)
    {
      AddedKeepsUniqueIds(ingredients, newIngredient);
      ingredients := Added(ingredients, newIngredient);
      newIngredient := EmptyDraft(today);
    }

    /** "Refresh Expiry" on a row. */
    method HandleRefreshExpiry(id: int, today: int)
      requires Valid()
      modifies this
      ensures Valid() && newIngredient == old(newIngredient)
      ensures ingredients == Refreshed(old(ingredients), id, today)
    {
      RefreshedKeepsUniqueIds(ingredients, id, today);
      ingredients := Refreshed(ingredients, id, today);
    }

    /** "Delete" on a row. */
    method HandleDelete(id: int)
      requires Valid()
      modifies this
      ensures Valid() && newIngredient == old(newIngredient)
      ensures ingredients == Without(old(ingredients), id)
      ensures |ingredients| >= |old(ingredients)| - 1
    {
      WithoutKeepsUniqueIds(ingredients, id);
      if k :| 0 <= k < |ingredients| && ingredients[k].id == id {
        WithoutRemovesOne(ingredients, k);
      } else {
        WithoutAbsent(ingredients, id);
      }
      ingredients := Without(ingredients, id);
    }
  }
}
