# SalesManager state model

A model of the state bookkeeping of the `SalesManager` React component of the
sales front end. The component holds four pieces of state: the list of sales,
the form draft, an optional error message and an optional selected sale. Its
handlers load the list from a REST endpoint, create, update and delete sales,
and select, close or reset the form.

The model has three modules, one per file:

- `Js` (`js.dfy`): the JavaScript values the component observes. A number is
  NaN, an infinity or a finite real. `null` is `Nullable.Null`. `===` on
  numbers is `StrictEquals`, for which NaN equals nothing. `Truthy` is the
  JavaScript truthiness of a `number | null`. A raw JSON property is a
  string, a number, or another value that carries its `String` and `Number`
  conversions. `parseFloat`, `Number` on strings and `Number.prototype.toString`
  are abstract functions held in a `Conversions` value.
- `Sales` (`sales.dfy`): the sale records, plus the pure list computations the
  handlers perform. These are the coercion and the all-or-nothing validation of
  a fetched batch (`Normalize`), the `map` that replaces the rows of an updated
  sale (`ReplaceById`) and the `filter` that drops the rows of a deleted one
  (`RemoveById`).
- `SalesManagerComponent` (`sales_manager.dfy`): the class `SalesManager`. It
  has the four state fields and one method per handler. Each method takes the
  outcome of its network call as a `Response` parameter: success with a body,
  a status that is not ok, or a thrown error with its message. Each method
  states the whole new state.

Every handler runs to completion before the next one starts.

Behaviours of the code that the model keeps as they are:

- The fetched id goes through `Number`, not an integer conversion, so a
  fractional id stays fractional.
- The id is only tested with `typeof id === 'number'`, which every `Number(...)`
  result passes. An id that `Number` turns into NaN is therefore accepted and
  stored (`Sales.IdNeverRejects`).
- The amounts are only tested against NaN, so `Infinity` is accepted. The model
  keeps the infinities for that reason.
- Submit chooses update or create by the truthiness of the draft's id, not by
  its presence. A draft whose id is `0` or NaN is created with a POST rather than
  updated (`SalesManagerComponent.FalsyIdCreates`,
  `SalesManagerComponent.EditThenSubmit`).
- Viewing a sale selects it and also resets the draft.
- A delete of `k` removes the rows whose id is `===` to `k`. Rows whose id is NaN
  are never removed, because NaN is `===` to nothing (`Sales.RemoveByIdUnchanged`).
- The responses to create and update are stored without the check a fetch
  applies. The state invariant `SalesManager.SalesSound` (every row has non-NaN
  amounts) is established by an accepted fetch and kept by every other
  handler. A create or update keeps it only when the server's response is
  itself sound; a response with a NaN price puts a NaN row in the list.

## Model

| member | source | states |
|---|---|---|
| `Sales.CoerceAll` | src/components/SalesManager.tsx:35-41 | the coerced batch is as long as the raw one and element `i` is the coercion of raw element `i` |
| `Sales.AllWellTyped` | src/components/SalesManager.tsx:44-54 | the `every` check holds exactly when each coerced element has a string name and non-NaN price, delivery and total |
| `Sales.Normalize` | src/components/SalesManager.tsx:35-56 | the batch is accepted iff every element passes the check. If it is not, the message is "Invalid sales data format". If it is, the result is as long as the input and keeps each element's position and name; its id is `Number(id)` and its amounts are `parseFloat` of the raw ones, none of them NaN |
| `Sales.OneBadElementRejects` | src/components/SalesManager.tsx:44-56 | one element failing the check rejects the whole batch |
| `Sales.IdNeverRejects` | src/components/SalesManager.tsx:36-46 | changing an element's raw id to any value, including one that coerces to NaN, never changes the verdict, and an accepted batch stores the coerced id |
| `Sales.WidgetAccepted` | src/components/SalesManager.tsx:35-58 | a record whose fields are all text and parse is accepted with the parsed numbers and its name |
| `Sales.WidgetWithNaNPriceRejected` | src/components/SalesManager.tsx:38-56 | a record whose price does not parse is rejected with the format message |
| `Sales.NormalizeSound` | src/components/SalesManager.tsx:44-58 | every sale of an accepted batch has non-NaN price, delivery and total, so the list a fetch stores satisfies the invariant |
| `Sales.ReplaceById` | src/components/SalesManager.tsx:80 | the length is kept; each row whose id is `===` the given id becomes the response, and every other row stays unchanged in place |
| `Sales.ReplaceByIdWithoutMatch` | src/components/SalesManager.tsx:80 | if no row has the id, the list is unchanged |
| `Sales.ReplaceByIdIdempotent` | src/components/SalesManager.tsx:80 | replacing a second time with the same response changes nothing more |
| `Sales.ReplaceByIdSound` | src/components/SalesManager.tsx:80 | replacing rows of a sound list by a sound response gives a sound list |
| `Sales.AppendSound` | src/components/SalesManager.tsx:82 | appending a sound response to a sound list gives a sound list |
| `Sales.RemoveById` | src/components/SalesManager.tsx:98 | the result is no longer than the list, and a sale occurs in it iff it occurs in the list and its id is not `===` the given id |
| `Sales.RowsWithId` | src/components/SalesManager.tsx:98 | every row it collects is from the list and has the given id; it is the reference for what a delete takes away |
| `Sales.RemoveByIdPartition` | src/components/SalesManager.tsx:98 | what the filter keeps plus the rows with the id make up the list again, counted with multiplicity, so exactly those rows are removed |
| `Sales.RemoveByIdConcat` | src/components/SalesManager.tsx:98 | filtering a concatenation filters each part, so the kept rows keep their relative order |
| `Sales.RemoveByIdUnchanged` | src/components/SalesManager.tsx:98 | the filter leaves the list unchanged iff no row has an id `===` the given one, and so a NaN id removes nothing |
| `Sales.RemoveByIdSound` | src/components/SalesManager.tsx:98 | the filter keeps a sound list sound |
| `Sales.RemoveByIdIdempotent` | src/components/SalesManager.tsx:98 | deleting the same id twice gives what deleting it once gives |
| `SalesManagerComponent.SubmitRequest` | src/components/SalesManager.tsx:67-75 | a truthy draft id gives a PUT to that id, anything else gives a POST; the body carries the draft's name and `parseFloat` of its price and delivery |
| `SalesManagerComponent.FalsyIdCreates` | src/components/SalesManager.tsx:68-69 | a draft id of `null`, `0` or NaN gives a POST |
| `SalesManagerComponent.EditThenSubmit` | src/components/SalesManager.tsx:107-115 | submitting a draft loaded by Edit gives a PUT to the sale's own id iff that id is neither `0` nor NaN; the name is sent back unchanged, and so are the amounts whenever `parseFloat` reads back what `toString` wrote |
| `SalesManagerComponent.SalesManager.constructor` | src/components/SalesManager.tsx:19-22 | the list is empty, the draft is empty in create mode, and the error and the selection are null; the list is sound |
| `SalesManagerComponent.SalesManager.FetchSales` | src/components/SalesManager.tsx:28-63 | an accepted batch replaces the list and clears the error. A rejected batch, a status that is not ok or a thrown error keeps the list and sets the error to the matching message. The draft and the selection never change. An accepted batch makes the list sound, and a sound list stays sound whatever the outcome |
| `SalesManagerComponent.SalesManager.HandleSubmit` | src/components/SalesManager.tsx:65-90 | the request sent is `SubmitRequest` of the old draft. On success an update replaces the matching rows and a create appends the response, and then the draft, the selection and the error reset. On failure only the error changes, to "Failed to update sale", "Failed to create sale" or the thrown message. A sound list stays sound when the response (if any) is sound |
| `SalesManagerComponent.SalesManager.HandleDelete` | src/components/SalesManager.tsx:92-105 | the request is a DELETE of the id. On success the list becomes `RemoveById` of the old list, and the selection, the draft and the error reset. On failure only the error changes. A sound list stays sound |
| `SalesManagerComponent.SalesManager.HandleViewOrEdit` | src/components/SalesManager.tsx:107-120 | the sale becomes the selection. The draft becomes the sale's id, its name and the text of its price and delivery for Edit, and becomes empty for View. The list and the error stay, so soundness is kept |
| `SalesManagerComponent.SalesManager.HandleCloseDetails` | src/components/SalesManager.tsx:122-124 | only the selection changes, to null, so soundness is kept |
| `SalesManagerComponent.SalesManager.HandleResetForm` | src/components/SalesManager.tsx:126-129 | the draft becomes empty and the selection null; the list and the error stay, so soundness is kept |

## Left out

- HTTP and JSON: `fetch`, `res.ok`, `res.json()` and `JSON.stringify` are I/O. Each call's outcome is a `Response` parameter, and a thrown error's message is part of that parameter.
- The text of the request URLs: the base `http://localhost:3000/api/sales` and the `${id}` interpolation. A `Request` names the verb and the id instead, because the number-to-text conversion of a URL is outside the model.
- How `JSON.stringify` writes a NaN amount in a request body (as `null`). This is serialisation, which the model does not cover.
- Exact floating point: the model covers neither the rounding of `parseFloat`, `Number` and `toString` nor the sign of zero. These conversions are abstract functions.
- A fetched body that is not an array, or an element that is `null`, makes `map` or a property access throw a `TypeError`. The model takes the body as a sequence of records with five properties. A missing property is an `Other` value (`undefined`).
- Async interleaving: `handleSubmit` and `handleDelete` work on the `sales` captured when they started. The model runs each handler to completion on the current state, one at a time.
- The shape of the create and update responses. The source stores them without checking, so the model takes the response as a `Sale`.
- The form's `onChange` setters, `e.preventDefault()`, the `useEffect` that fetches on mount, and all rendering, `toFixed(2)` formatting included. These are UI wiring.
