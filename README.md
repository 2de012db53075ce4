# Order lifecycle of the orders microservice, in Dafny

This project models the core of a small order-management API: the five
handlers of `OrderController` (`store`, `show`, `update`, `destroy`,
`getOrdersByUser`) and the `Order` model they persist. The handlers
validate their input, change the orders table, and dispatch queued jobs
(`ProcessOrder`, `OrderShipped`, `OrderCompleted`, `OrderCancelled`).

The model is built like this:

- `Values` (values.dfy): a PHP value as decoded from a JSON request body.
  It has two extra kinds: `Stamp(t)`, an instant read from the clock, and
  `JsonText(v)`, the opaque `json_encode` of `v`. A row or request body is
  an `Attributes` map from key to value.
- `Validation` (validation.dfy): the rules the controller uses (`required`,
  `array`, `numeric`, `in:`) as predicates. `numeric` is written out as PHP 8's
  numeric-string grammar: optional white space, an optional sign, digits with
  an optional point and an optional exponent, then optional white space.
- `Models` (order_model.dfy): `Order.php`. `$fillable` is the mass-assignment
  filter `Fillable`, and `Fill` is Eloquent's `fill` built on it. `$hidden` is
  the serialisation projection `ToArray`.
- `Jobs` (jobs.dfy): a dispatched job is its class name and its payload.
- `Controllers` (order_controller.dfy): class `OrderController` holds the
  orders table (`orders: map<int, Attributes>`), the auto-increment counter
  (`nextId`) and the log of dispatched jobs (`jobs`). `Store`, `Update`,
  `UpdateIntended` and `Destroy` are methods that change these fields. `Show`
  and `GetOrdersByUser` are functions that only read them. Every reply is an
  HTTP code, the `status` flag and a tagged `data` body.
- `Scenarios` (scenarios.dfy): client methods that replay the API's own example
  order through its life, using only the handlers' contracts.

The outside world enters as parameters:

- `Carbon::now()` is a `now: int` argument.
- A failure of the database or of the queue is a `Fault` argument of each
  handler that writes: `NoFault`, `WriteFails(message)` (the insert, update or
  delete throws) or `DispatchFails(message)` (a job dispatch throws after the
  write). `store` catches both and answers 500 with the message. `update` and
  `destroy` catch nothing, so the framework answers 500 "Server Error".

The model follows the code, including its two defects, which are listed under
"## Findings". The corrected `update` sits beside the as-written one. Three
behaviours of the code are worth stating outright:

- `update` answers 404 only for id 0
  (src/app/Http/Controllers/OrderController.php:271 tests the route id). `show`
  and `destroy` test the looked-up order instead (:190, :370) and answer 404
  for every absent id, which is what `update` evidently means to do.
- `update` never dispatches `OrderCancelled`: the third case of its switch
  repeats the label "Shipped" (:305). The comment on that branch (:306) asks
  for a refund request, which only a cancellation calls for.
- In `store`, the insert and the dispatch of `ProcessOrder` sit in one `try`
  (:109-131). A dispatch that throws is reported as 500, but the row it
  follows is already written and stays.

## Model

| member | source | states |
|---|---|---|
| `Models.Fillable` | src/app/Models/Order.php:14-20 | mass assignment keeps exactly the keys that are both given and in the five fillable ones (`user_id`, `order_date`, `product_list`, `status`, `total_amount`), with their values unchanged |
| `Models.Fill` | src/app/Models/Order.php:14-20 | mass assignment as `create` and `update` use it: the model's attributes overwritten by the fillable ones given; the result has exactly the model's keys plus the given fillable keys |
| `Models.ToArray` | src/app/Models/Order.php:22-25 | the serialised form has exactly the model's keys minus `created_at` and `updated_at`, each with its value unchanged |
| `Models.FillSetsExactlyFillable` | src/app/Models/Order.php:14-20 | `fill` sets a key exactly when it is given and fillable, and then to the given value; every other key of the model keeps its presence and value |
| `Models.IdNeverMassAssigned` | src/app/Models/Order.php:14-20 | whatever attributes `create` or `update` receive, the presence and value of `id` are those the model already had |
| `Models.StatusIsMassAssignable` | src/app/Models/Order.php:14-20 | `fill(['status' => s])`, the mass-assignment step of `update`, sets the status to `s` and no other attribute (the save that follows may also set `updated_at`; see `StatusUpdated`) |
| `Models.ToArrayHidesTimestamps` | src/app/Models/Order.php:22-25 | a serialised order never contains `created_at` or `updated_at`; every other attribute appears unchanged |
| `Models.ToArrayIdempotent` | src/app/Models/Order.php:22-25 | serialising twice equals serialising once |
| `Models.ToArrayIgnoresHidden` | src/app/Models/Order.php:22-25 | changing a hidden column does not change the serialised form |
| `Models.ToArraySetVisible` | src/app/Models/Order.php:22-25 | setting a visible attribute and then serialising equals serialising and then setting it |
| `Validation.Required` | src/app/Http/Controllers/OrderController.php:92-94 | the `required` rule: fails for null (a missing field), a string that trims to nothing and an empty array or object; every other value passes, false and 0 included |
| `Validation.IsArray` | src/app/Http/Controllers/OrderController.php:93 | the `array` rule: passes for a JSON list or JSON object, the two forms a PHP array arrives in |
| `Validation.IsNumeric` | src/app/Http/Controllers/OrderController.php:94 | the `numeric` rule: passes for an integer, a float, or a string that `NumericString` accepts; fails for every other value |
| `Validation.NumericString` | src/app/Http/Controllers/OrderController.php:94 | PHP 8's numeric strings: optional leading and trailing white space, an optional sign, digits with an optional point (a digit on at least one side) and an optional exponent; hexadecimal, octal and binary forms are refused |
| `Validation.InList` | src/app/Http/Controllers/OrderController.php:280 | the `in:` rule: the value cast to a string is in the list; a boolean casts to "1" or "", an integer to its decimal digits, and arrays never pass |
| `Validation.NumericStringHasDigit` | src/app/Http/Controllers/OrderController.php:94 | a string that passes `numeric` contains a decimal digit, so "", blanks, "." and words are refused as `total_amount` |
| `Validation.DigitsAreNumeric` | src/app/Http/Controllers/OrderController.php:94 | a non-empty string of decimal digits passes `numeric` |
| `Validation.DecimalStringHead` | src/app/Http/Controllers/OrderController.php:280 | an integer cast to a string, as the `in:` rule compares it, starts with a minus sign or a digit |
| `Controllers.StoreErrors` | src/app/Http/Controllers/OrderController.php:91-95 | the set of failing fields of store's rules (`user_id` required, `product_list` required and an array, `total_amount` required and numeric); only those three fields are ever named |
| `Controllers.MissingStoreFieldRejected` | src/app/Http/Controllers/OrderController.php:91-95 | a missing `user_id`, `product_list` or `total_amount` is reported among the failing fields |
| `Controllers.StoreAcceptsOnlyCompleteOrders` | src/app/Http/Controllers/OrderController.php:91-103 | input that passes store's rules has a non-null user id, a product list that is a non-empty PHP array, and a total that is an integer, a float or a string holding a digit |
| `Controllers.StoreAcceptsWellFormedOrder` | src/app/Http/Controllers/OrderController.php:91-103 | an integer user id, a non-empty product list and a numeric total (number or digit string) pass store's rules |
| `Controllers.StatusErrors` | src/app/Http/Controllers/OrderController.php:279-281 | the failing fields of update's rule (`status` required and in the four statuses); at most `status` is named |
| `Controllers.RequestedStatus` | src/app/Http/Controllers/OrderController.php:291 | the status string `update` writes, `$request->input('status')`, once the rule has passed (`StatusRuleExact` shows that the input then is that string) |
| `Controllers.StatusRuleExact` | src/app/Http/Controllers/OrderController.php:279-289 | the status rule passes exactly for a string that is one of Processing, Shipped, Completed, Cancelled; otherwise only `status` is reported |
| `Controllers.CreateAttributes` | src/app/Http/Controllers/OrderController.php:111-116 | the attributes `store` hands to `Order::create`: `user_id` and `total_amount` from the request, the JSON-encoded `product_list` and `order_date` at now; exactly these four keys, all fillable, so mass assignment keeps every one |
| `Controllers.CreatedRow` | src/app/Http/Controllers/OrderController.php:111-116 | the inserted row has the new id, the input `user_id` and `total_amount`, the encoded `product_list`, and `order_date`, `created_at` and `updated_at` all at now; it has no status and no other column |
| `Controllers.StatusUpdated` | src/app/Http/Controllers/OrderController.php:291 | after the status write the status is `s` and every column other than `status` and `updated_at` is unchanged; the serialised row equals the old serialised row with only `status` replaced; the row is unchanged (no write is sent) exactly when it already held status `s` |
| `Controllers.Select` | src/app/Http/Controllers/OrderController.php:293-309 | the job a switch over the status runs: the first case whose label equals the subject; a selected job always belongs to a case carrying that label (first-ness in `SelectIsFirstMatch`) |
| `Controllers.Dispatched` | src/app/Http/Controllers/OrderController.php:296-308 | the jobs one switch outcome queues: a single job of the selected class carrying the serialised order, or none when no case matched |
| `Controllers.SelectIsFirstMatch` | src/app/Http/Controllers/OrderController.php:293-309 | a switch runs the branch of the first case whose label equals the subject, and none exactly when no label does |
| `Controllers.ShadowedCaseNeverRuns` | src/app/Http/Controllers/OrderController.php:293-309 | a case whose label an earlier case repeats never runs, so its job is never selected when no other case carries it |
| `Controllers.CancelledNeverDispatched` | src/app/Http/Controllers/OrderController.php:305-308 | as written, no status makes the switch select `OrderCancelled` |
| `Controllers.UpdateSwitchAsWritten` | src/app/Http/Controllers/OrderController.php:293-309 | as written, Shipped selects OrderShipped, Completed OrderCompleted, and Processing and Cancelled select nothing |
| `Controllers.IntendedSwitchDispatchesCancelled` | src/app/Http/Controllers/OrderController.php:305-308 | with the third label reading Cancelled, Cancelled selects OrderCancelled, Shipped and Completed keep their jobs, Processing selects nothing, and no two statuses select the same job |
| `Controllers.BelongsTo` | src/app/Http/Controllers/OrderController.php:442 | the `where('user_id', $user)` condition: the row holds that user id as an integer |
| `Controllers.UserOrders` | src/app/Http/Controllers/OrderController.php:442-444 | the listing query: the serialised rows of the user stored under ids below the bound, in increasing id order (its soundness, completeness and order are the next three lemmas) |
| `Controllers.UserOrdersSound` | src/app/Http/Controllers/OrderController.php:442-444 | every listed row is the serialised form of a stored row whose `user_id` is the user |
| `Controllers.UserOrdersComplete` | src/app/Http/Controllers/OrderController.php:442-444 | every stored row whose `user_id` is the user is listed |
| `Controllers.UserOrdersIncreasing` | src/app/Http/Controllers/OrderController.php:442-444 | listed rows come in strictly increasing id order, so none appears twice |
| `Controllers.OrderController.Store` | src/app/Http/Controllers/OrderController.php:88-137 | invalid input: 400 naming the failing fields, nothing written or dispatched. Insert failure: 500 with the message, nothing written, nothing dispatched. Otherwise exactly one row is added under a fresh id (see `CreatedRow`). Then either exactly one ProcessOrder carrying the serialised row is appended and the reply is 201 with that row, which a following `Show` returns, or the dispatch throws and the reply is 500 with the message and no job |
| `Controllers.OrderController.Show` | src/app/Http/Controllers/OrderController.php:186-201 | 200 exactly when the id is stored, with the stored order minus its timestamps; otherwise 404 "Order not found"; reads only |
| `Controllers.OrderController.Update` | src/app/Http/Controllers/OrderController.php:267-317 | 404 exactly when the id is 0, checked before validation. An invalid status gives 400 with nothing changed. A valid status for an absent non-zero id, or a write that throws, gives an uncaught error (500) with nothing changed; a status equal to the stored one sends no write, so a failing database does not affect it. Otherwise only that order's status is written (see `StatusUpdated`) and the as-written switch picks at most one job, never OrderCancelled. The job is appended and the reply carries only the new status; if that dispatch throws, the status stays written, no job is appended and the reply is an uncaught 500 |
| `Controllers.OrderController.UpdateIntended` | src/app/Http/Controllers/OrderController.php:269-309 | as `Update`, including its failures, but 404 exactly when the id is not stored (checked first), and without faults Cancelled appends exactly one OrderCancelled carrying the updated order |
| `Controllers.OrderController.Destroy` | src/app/Http/Controllers/OrderController.php:366-383 | a stored id is removed (200 "Deleted"); a delete that throws gives an uncaught 500 with the order kept; an absent id gives 404 with no change; no job in any case, and after a 200 or a 404 a following `Show` of that id is 404 |
| `Controllers.OrderController.GetOrdersByUser` | src/app/Http/Controllers/OrderController.php:440-449 | always 200 with exactly the serialised stored orders whose `user_id` is the user, each once, in increasing id order; an empty list when the user has none; reads only |

## Left out

- Routing, the `auth:sanctum` and `throttle:api` middleware and the `/login` route: framework plumbing with no logic of its own.
- The OpenAPI annotations: documentation only.
- The job handlers (their `handle()` bodies are empty) and asynchronous delivery by the queue: a dispatch is an append to `jobs`.
- Eloquent query building and the database itself: the table is a map. Type coercion by the database is not modelled. A `user_id` matches a user only when it is stored as that integer.
- The table's migration is not part of this model. A column the insert does not write, such as `status` after `store`, is absent from the row rather than holding a default.
- `json_encode` of the product list is the opaque `JsonText(v)`. Its failure cases are not modelled.
- The decimal and double numerics of `total_amount` and `price` are stored as given. Nothing computes with them.
- `Carbon::now()` and Eloquent's own timestamps read one clock value per request, the `now` argument.
- The validator's messages: an error body is the set of the failing field names.
- The framework's request middleware that trims strings and turns empty strings into null: the request reaches the rules as decoded.
- Route parameters that are not integers: ids are integers here.
- The auto-increment counter is not advanced by an insert that fails.
- Failures of the reads (`Order::find`, the listing query): only the writes and the dispatches of a handler can fail here.
- Concurrent requests: each handler runs as one atomic step. In the source the lookup and the write are separate statements (`update` :269 and :291, `destroy` :368 and :378), so another request can run between them; for example, a `destroy` between `update`'s lookup and its write.
- Debug-mode error pages: an uncaught error is rendered as in production, `Uncaught(500, "Server Error")`.
- Validation.InList: the string form of a float is not modelled, and a float is never in the list. This holds for the status list, whose entries are words.
- Controllers.OrderController.GetOrdersByUser: the query has no ORDER BY, so the row order is the database's. The model lists rows in increasing id order, the order of a scan of the auto-increment key.

## Findings

| source | as written | input that shows it | evidently intended | confidence | as-written member | corrected member |
|---|---|---|---|---|---|---|
| src/app/Http/Controllers/OrderController.php:305 | the third case of the status switch is labelled "Shipped" again, so the OrderCancelled branch can never run | `update` with status "Cancelled" on a stored order: status written, no job dispatched | label "Cancelled", so cancelling dispatches OrderCancelled (the branch's comment asks for a refund request) | high; not executed | `Controllers.CancelledNeverDispatched` | `Controllers.IntendedSwitchDispatchesCancelled` |
| src/app/Http/Controllers/OrderController.php:271 | the not-found guard tests the route id `$order` instead of the looked-up `$item`, so it fires only for id 0 | `update` of id 7 on an empty table with status "Shipped": `update()` is called on null and the reply is 500 | test `$item`, answering 404 "Order not found" for every absent id, as `show` and `destroy` do | high; not executed | `Controllers.OrderController.Update` | `Controllers.OrderController.UpdateIntended` |
