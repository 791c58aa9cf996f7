# Fridge inventory: a Dafny model

This project models the logic of a small fridge-tracking web app. The app has
two parts:

- **The fridge dashboard component.** It holds a closed catalog of known
  ingredients with their fridge life in days. It derives a draft item's expiry
  date from that catalog and the purchase date. It keeps an ordered inventory
  of `{id, name, quantity, expiryDate}` records, which the user adds to,
  refreshes (expiry becomes today + 7 days) and deletes from.
- **The read endpoint `/api/ingredients`.** A GET returns the records of the
  endpoint's own static sample whose expiry is strictly after now. Any other
  method gets 405 with `Allow: GET`.

Modelling choices:

- Dates are day numbers counted from 1970-01-01. `NoDate` stands for the empty
  string that a date input holds before anything is entered.
- "Today" and "now" are parameters. Nothing reads a clock.
- The dashboard's two pieces of React state (`ingredients` and the
  `newIngredient` draft) are the fields of the class
  `FridgeDashboard.Dashboard`. Each event handler is a method on it.
  `HandleSubmit`, `HandleRefreshExpiry` and `HandleDelete` assign the result
  of a pure function (`Added`, `Refreshed`, `Without`). `HandleEdit` applies
  the edit and then, if the name or the purchase date changed, runs `Derive`;
  its result is proved equal to the pure `AfterEdit`. The lemmas are stated
  about those functions.
- The class invariant `Valid()` says that ids are pairwise distinct. The
  constructor establishes it and every handler keeps it.
- The expiry rule `Derive` takes the catalog as a parameter. `FindEntry`,
  `DeriveKnown`, `DeriveUnknown` and `DeriveIdempotent` are proved for any
  catalog (the first two for any catalog whose names are non-empty and
  distinct). The component always passes the fixed catalog
  `IngredientOptions`, and `CatalogWellNamed` proves that it qualifies. The
  remaining expiry lemmas (`DeriveEggs`, `DeriveEmptyDraft`, and those about
  `AfterEdit`) are stated for that fixed catalog.
- Both the delete handler and the endpoint use `Array.prototype.filter`.
  They share the generic `Filtering.Filter` and its lemmas.
- The endpoint is a function of the request method and the current day. So it
  is stateless by construction: the same method and day always give the same
  response, and the sample constant is never changed.
- The endpoint compares `new Date(expiryDate) > new Date()`. An expiry date
  parses to midnight at the start of its day, so it is later than the current
  instant exactly when its day number exceeds today's. An empty or invalid
  expiry date compares false.
- The add handler appends whatever the draft holds. It checks neither the name
  nor the quantity. The only checks are the browser's `required` attributes on
  the quantity and date inputs, and the name combobox carries none. The model
  follows the handler.

Files: `records.dfy` (shared record and date types), `filtering.dfy`
(order-preserving filter), `fridge_dashboard.dfy` (catalog, expiry rule,
store), `ingredients_api.dfy` (read endpoint).

## Model

| member | source | states |
|---|---|---|
| `Filtering.Filter` | components/fridge-dashboard.tsx:110 | a value is in the result exactly when it is in the input and accepted; the result is never longer than the input |
| `Filtering.FilterIsSubsequence` | pages/api/ingredients.tsx:14-18 | the filter's result is an order-preserving subsequence of its input |
| `Filtering.FilterConcat` | components/fridge-dashboard.tsx:110 | filtering `a + b` gives the filtered `a` followed by the filtered `b`, so relative order is kept |
| `Filtering.FilterKeepsAll` | components/fridge-dashboard.tsx:110 | when every element is accepted, the filter returns its input unchanged |
| `Filtering.FilterDropsAll` | components/fridge-dashboard.tsx:110 | when no element is accepted, the filter returns the empty list |
| `FridgeDashboard.Find` | components/fridge-dashboard.tsx:65 | `find` by name returns none exactly when no option has that name; otherwise it returns the first option with that name |
| `FridgeDashboard.CatalogWellNamed` | components/fridge-dashboard.tsx:27-38 | every catalog name is non-empty and no two entries share a name |
| `FridgeDashboard.FindEntry` | components/fridge-dashboard.tsx:65 | in a catalog with distinct names, looking up an entry's name returns that same entry |
| `FridgeDashboard.Derive` | components/fridge-dashboard.tsx:63-75 | the expiry effect never changes the draft's name, quantity or purchase date |
| `FridgeDashboard.DeriveKnown` | components/fridge-dashboard.tsx:64-72 | for a catalogued name and a set purchase day p, the draft's expiry becomes p + that entry's fridgeLife, whatever it was before |
| `FridgeDashboard.DeriveUnknown` | components/fridge-dashboard.tsx:64-66 | for any catalog, an empty name, an empty purchase date or an uncatalogued name leaves the whole draft unchanged, including a hand-entered expiry |
| `FridgeDashboard.DeriveIdempotent` | components/fridge-dashboard.tsx:63-75 | running the effect a second time changes nothing |
| `FridgeDashboard.DeriveEggs` | components/fridge-dashboard.tsx:29 | Eggs bought on day p expire on day p + 21; bought on 2024-01-01 they expire on 2024-01-22 |
| `FridgeDashboard.AfterEdit` | components/fridge-dashboard.tsx:63-79 | after an edit, the draft's name, quantity and purchase date are the edited ones; when the name or the purchase date changed, the expiry is the one the effect derives from the edited draft; otherwise the expiry is the edited draft's |
| `FridgeDashboard.SelectNameRederives` | components/fridge-dashboard.tsx:63-75 | choosing a different catalogued name with a purchase day p set makes the expiry p + that entry's fridgeLife |
| `FridgeDashboard.QuantityEditKeepsExpiry` | components/fridge-dashboard.tsx:77-79 | editing the quantity changes only the quantity; the expiry stays |
| `FridgeDashboard.ManualExpiryKept` | components/fridge-dashboard.tsx:77-79 | typing an expiry date keeps it while the name and purchase date stay the same |
| `FridgeDashboard.ManualExpiryOverwritten` | components/fridge-dashboard.tsx:63-75 | a hand-typed expiry is overwritten by purchase day + fridgeLife once a new purchase date is entered for a catalogued name |
| `FridgeDashboard.DeriveEmptyDraft` | components/fridge-dashboard.tsx:93-98 | the reset draft (no name, purchased today, no expiry) is left alone by the effect |
| `FridgeDashboard.MaxId` | components/fridge-dashboard.tsx:84 | the result is at least every id and is the id of some record |
| `FridgeDashboard.NextId` | components/fridge-dashboard.tsx:83-85 | an empty store gives id 1; otherwise the new id is one more than an existing id and strictly greater than every id |
| `FridgeDashboard.Added` | components/fridge-dashboard.tsx:83-91 | exactly one record is appended; earlier records are unchanged in content and position; the new record has id `NextId` (1 on an empty store, max + 1 otherwise), greater than every earlier id, and the draft's name, quantity and expiry |
| `FridgeDashboard.InitialStore` | components/fridge-dashboard.tsx:41-45 | the initial ids 1, 2, 3 are distinct and the next id is 4 |
| `FridgeDashboard.AddedKeepsUniqueIds` | components/fridge-dashboard.tsx:83-91 | adding keeps the ids pairwise distinct |
| `FridgeDashboard.Refreshed` | components/fridge-dashboard.tsx:101-106 | length, order, ids, names and quantities are unchanged; matching records now expire on today + 7, whatever the catalog says; other records are untouched |
| `FridgeDashboard.RefreshedAbsent` | components/fridge-dashboard.tsx:104-106 | refreshing an id that no record has leaves the store unchanged |
| `FridgeDashboard.RefreshedKeepsUniqueIds` | components/fridge-dashboard.tsx:104-106 | refreshing keeps the id sequence, so the ids stay distinct |
| `FridgeDashboard.Without` | components/fridge-dashboard.tsx:110 | a record survives deletion exactly when it was in the store and its id differs from the deleted id |
| `FridgeDashboard.FilterKeepsUniqueIds` | components/fridge-dashboard.tsx:110 | any filter of a list with distinct ids has distinct ids |
| `FridgeDashboard.WithoutKeepsUniqueIds` | components/fridge-dashboard.tsx:110 | deleting keeps the ids pairwise distinct |
| `FridgeDashboard.WithoutAbsent` | components/fridge-dashboard.tsx:110 | deleting an id that no record has leaves the store unchanged |
| `FridgeDashboard.WithoutRemovesOne` | components/fridge-dashboard.tsx:109-111 | with distinct ids, deleting the id at position k gives the store minus exactly that record, with the rest in order |
| `FridgeDashboard.Dashboard.constructor` | components/fridge-dashboard.tsx:41-59 | the initial state is the three-record list and the empty draft dated today; ids are distinct |
| `FridgeDashboard.Dashboard.HandleEdit` | components/fridge-dashboard.tsx:63-79 | an edit leaves the inventory unchanged; the draft becomes `AfterEdit` of the old draft |
| `FridgeDashboard.Dashboard.HandleSubmit` | components/fridge-dashboard.tsx:81-99 | the inventory becomes `Added` of the old inventory and draft; the draft is reset with today as purchase date; ids stay distinct |
| `FridgeDashboard.Dashboard.HandleRefreshExpiry` | components/fridge-dashboard.tsx:101-107 | the inventory becomes `Refreshed` of the old one; the draft is untouched; ids stay distinct |
| `FridgeDashboard.Dashboard.HandleDelete` | components/fridge-dashboard.tsx:109-111 | the inventory becomes `Without` of the old one; at most one record is removed; the draft is untouched; ids stay distinct |
| `IngredientsApi.UnexpiredIngredients` | pages/api/ingredients.tsx:14-18 | a record is returned exactly when it is in the list and its expiry day is strictly after now; one expiring on or before now is excluded |
| `IngredientsApi.Handler` | pages/api/ingredients.tsx:9-25 | status 200 exactly for GET, with the unexpired sample records as JSON and no Allow header; any other method (or none) gets 405, `Allow: GET` and body "Method X Not Allowed" |
| `IngredientsApi.GetKeepsOrder` | pages/api/ingredients.tsx:14 | a GET returns an order-preserving subsequence of the static sample, with its records unmodified |
| `IngredientsApi.UnexpiredConcat` | pages/api/ingredients.tsx:14-18 | the unexpired part of `a + b` is the unexpired part of `a` followed by that of `b` |
| `IngredientsApi.GetOnNewYear2025` | pages/api/ingredients.tsx:3-19 | on 2025-01-01 a GET returns 200 with exactly Eggs and Cheese, in that order; Milk (expired 2023-06-30) is dropped |
| `IngredientsApi.LowerCaseGetRefused` | pages/api/ingredients.tsx:12-23 | the method match is exact: "get" gets 405 with body "Method get Not Allowed" |

## Left out

- JSX rendering and UI widgets (tabs, dialog, combobox, table, buttons), the `isOpen` and `dropdownOpen` flags, and the static recipe list. They are presentation only and compute nothing.
- `app/page.tsx`: it only renders the dashboard.
- JavaScript `Date` behaviour: ISO string parsing and formatting, millisecond arithmetic and clock reads. Dates are day numbers and today/now are parameters.
- FridgeDashboard.Refreshed: does not model the mix of local time (`setDate`) and UTC (`toISOString`) when the refreshed date is computed. The model's `today` is the current UTC day, as in the draft reset. Measured from that day, the source gives exactly today + 7 except when a daylight-saving change falls within the week, where it can be one day off. Measured from the local calendar date, the result can be local date + 6 east of UTC and + 8 west of it. The model always uses UTC today + 7.
- IngredientsApi.Handler: the handler reads the clock once per record while it filters. The model uses one "now" for the whole request, so a request that spans midnight is not modelled.
- React scheduling: when `useEffect` fires and how `setState` calls are batched. `HandleEdit` runs the expiry effect right after the edit whenever the name or the purchase date changed. That is the effect's dependency list.
- The browser's `required` form validation. The add handler does not check it and the model does not either.
- The Next.js request and response objects. The handler returns status, `Allow` header values and body as one value, instead of calling `res.status`, `res.setHeader` and `res.end`.
- JavaScript number limits: ids are unbounded integers, and `Math.max` over a very large spread is not modelled.
