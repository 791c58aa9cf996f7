/** The inventory record shared by the dashboard's store and the read
    endpoint's sample list, and the calendar dates it carries. */
module Records {

  /** A value that may be absent (JavaScript `undefined`). */
  datatype Option<T> = None | Some(value: T)

  /** A calendar date as a day number (days since 1970-01-01), or the empty
      string that a date input holds before anything is entered. */
  datatype Date = NoDate | Day(n: int)

  /** One entry of the inventory: `{ id, name, quantity, expiryDate }`.
      The quantity is free text such as "1L" or "200g". */
  datatype Ingredient = Ingredient(id: int, name: string, quantity: string, expiryDate: Date)

  /** The ids of a list of records, position by position. */
  function Ids(s: seq<Ingredient>): seq<int>
  {
    seq(|s|, i requires 0 <= i < |s| => s[i].id)
  }

  /** No two records of the list share an id. */
  predicate UniqueIds(s: seq<Ingredient>)
  {
    forall i, j :: 0 <= i < j < |s| ==> s[i].id != s[j].id
  }

  /** Some record of the list carries `id`. */
  predicate HasId(s: seq<Ingredient>, id: int)
  {
    exists i :: 0 <= i < |s| && s[i].id == id
  }
}
