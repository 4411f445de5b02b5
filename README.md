# Orders back-office controller, modelled in Dafny

This project models the decision rules of the commerce plugin's back-office
orders controller (`OrdersController`): the change-status action, the
memoised status map, the content rules of the order list, detail, cart and
subtotal field definitions, and the loops of the detail view that bind the
field definitions to the order and to the cart's subtotal rows.

Every host service is an abstract function: the validator, the order
processor's `loadOrder`, the currency formatter (`format`,
`formatWithDefault`), the email syntax check (`filter_var`), the date
formatter, `makeUrl`, the thumbnail snippet, `json_encode`, the parent
controller's `sortFields` and `processFields`, and the status table rows.

Modules, one per concern:

- `Wrappers` — `Option`, standing for PHP's `null` / missing key.
- `PhpArrays` — PHP's ordered arrays as sequences of key/value entries with
  distinct keys: reading (`Get`), writing `$a[$k] = $v` (`Put`: overwrite in
  place or append) and `array_merge` (`ArrayMerge`: string keys of the second
  array win, integer keys are renumbered and appended).
- `PhpValues` — row attributes (a string or a one-level nested array), PHP
  `empty()`, string conversion, and `==` against a string.
- `OrderCells` — the content closures as one `Rule` datatype (each rule
  carries what its closure captured: status map, default currency, the
  current order's currency), the cell functions, the status `<select>`
  (a loop, as in the source), and the four field/column definition sets.
- `Orders` — the `OrdersController` class (status cache field, change-status
  action, the binding loops of `show`), the host `OrderProcessor` reduced to
  its `loadOrder` lookup with a log of the ids it loads and a log of `changeStatus` calls, and the
  change-status action as a function `DecideStatusChange` with its lemmas.

`sendRedirectBack` ends the request, so in `ChangeStatus` each redirect is a
`return`: at most one processor call happens, and only for a request the
validator accepts that names a non-empty order.

The model follows the code as written:
- `order_id` is validated as numeric only, not as a positive integer
  (`StatusChangeRules`), and its message is the one written for `status_id`.
- The status map comes from a query without `ORDER BY`, so it is in the
  order the rows arrive (`LoadStatusesOfDistinctIds`), not sorted by id.
- "notify defaults to false" is PHP `!empty()`: `"0"` and `""` also give false.
- A description of `"0"` is replaced by `''`, like an absent one.

## Model

| member | source | states |
|---|---|---|
| `PhpArrays.PutGet` | assets/plugins/commerce/src/Module/Controllers/OrdersController.php:196 | after `$a[$k] = $v`, reading `k` gives `v` |
| `PhpArrays.PutKeys` | assets/plugins/commerce/src/Module/Controllers/OrdersController.php:196 | after `$a[$k] = $v`, the key list is unchanged when `k` was present, otherwise `k` is appended at the end |
| `PhpArrays.PutGetOther` | assets/plugins/commerce/src/Module/Controllers/OrdersController.php:196 | writing one key leaves every other key's value as it was |
| `PhpArrays.PutKeepsUniqueKeys` | assets/plugins/commerce/src/Module/Controllers/OrdersController.php:196 | writing into an array with distinct keys keeps them distinct |
| `PhpArrays.ArrayMergeGet` | assets/plugins/commerce/src/Module/Controllers/OrdersController.php:159 | in `array_merge($_POST, $_GET)` a string key takes the GET value when GET has it, otherwise the POST value, otherwise it is absent |
| `Orders.DecideStatusChange` | assets/plugins/commerce/src/Module/Controllers/OrdersController.php:157-187 | validator errors give a redirect with exactly those errors and no processor call; a passing request whose order is PHP-empty gives the not-found message and no call; otherwise exactly one call with the order's `id`, the request's `status_id`, the description or `''` when PHP-empty, `notify` = not PHP-empty, and the success message |
| `Orders.StatusIdFromRequest` | assets/plugins/commerce/src/Module/Controllers/OrdersController.php:159 | the status passed to the processor is the GET `status_id` when the query has one, the POST one otherwise |
| `Orders.NotifyWithoutDescription` | assets/plugins/commerce/src/Module/Controllers/OrdersController.php:184 | the query `order_id=42&status_id=3&notify=1` for an existing order 42 yields the call `(42, 3, '', true)` and the success redirect |
| `Orders.OrdersController.ChangeStatus` | assets/plugins/commerce/src/Module/Controllers/OrdersController.php:157-187 | returns the redirect of `DecideStatusChange` and appends to the processor's log exactly the call it decides, nothing when it decides none; `loadOrder` is called once, with `order_id`, exactly when the validator accepts the request, and not at all on a validation error |
| `Orders.OrderProcessor.ChangeStatus` | assets/plugins/commerce/src/Module/Controllers/OrdersController.php:184 | the processor records one status change with the four arguments |
| `Orders.OrderProcessor.constructor` | assets/plugins/commerce/src/Module/Controllers/OrdersController.php:177-178 | a processor over a given order lookup, with no load and no status change recorded |
| `Orders.OrderProcessor.LoadOrder` | assets/plugins/commerce/src/Module/Controllers/OrdersController.php:178 | returns the lookup's order for the id and records the call; the status-change log is untouched |
| `Orders.OrdersController.constructor` | assets/plugins/commerce/src/Module/Controllers/OrdersController.php:9-13 | the controller keeps the `order` language domain and has no status map yet |
| `Orders.OrdersController.GetStatuses` | assets/plugins/commerce/src/Module/Controllers/OrdersController.php:189-201 | the first call loads `id => title` from the rows into the cache field and returns it; every later call returns the cached map unchanged; the returned map has distinct ids on every call, because `Valid` (a cached map has distinct ids) is established by the constructor and kept by every method |
| `Orders.LoadStatusesUniqueKeys` | assets/plugins/commerce/src/Module/Controllers/OrdersController.php:193-197 | the loaded status map never holds an id twice |
| `Orders.LoadStatusesOfDistinctIds` | assets/plugins/commerce/src/Module/Controllers/OrdersController.php:192-197 | rows with distinct ids load into a map that lists them in query order |
| `Orders.OrdersController.BindFieldValues` | assets/plugins/commerce/src/Module/Controllers/OrdersController.php:102-104 | every field gets `value = values[key]`; keys, order and every other attribute are unchanged |
| `Orders.OrdersController.BindGroups` | assets/plugins/commerce/src/Module/Controllers/OrdersController.php:97-105 | group keys, order, titles and widths are unchanged; each group's fields are `sortFields` of the original fields bound to `processFields` of those sorted fields and the order |
| `Orders.BoundValueByKey` | assets/plugins/commerce/src/Module/Controllers/OrdersController.php:102-104 | looking a bound field up by its key gives its definition with `values[key]` as value |
| `Orders.OrdersController.BindSubtotalCells` | assets/plugins/commerce/src/Module/Controllers/OrdersController.php:129-131 | each subtotal row keeps its data and gets `cells` = the subtotal columns processed against that row |
| `OrderCells.MoneyCell` | assets/plugins/commerce/src/Module/Controllers/OrdersController.php:249-255 | the text starts with `format(amount, cur)` and has the `<br>(formatWithDefault(amount, cur))` suffix exactly when `cur` is not the default currency |
| `OrderCells.OrderAmountCell` | assets/plugins/commerce/src/Module/Controllers/OrdersController.php:247-256 | the list amount uses the order's own `amount` and `currency` |
| `OrderCells.OrderAmountStrongCell` | assets/plugins/commerce/src/Module/Controllers/OrdersController.php:357-366 | the detail amount is the same money text, wrapped in `<strong>` |
| `OrderCells.LineAmountCell` | assets/plugins/commerce/src/Module/Controllers/OrdersController.php:442-465 | cart price and summary use the line's amount in the current order's currency |
| `OrderCells.ListColumnsCells` | assets/plugins/commerce/src/Module/Controllers/OrdersController.php:245-287 | the list's `amount` column is the money text of the order's `amount` in the order's `currency`; its `status` column is the status select over the captured map |
| `OrderCells.GroupFieldsCells` | assets/plugins/commerce/src/Module/Controllers/OrdersController.php:315-368 | the detail `status` field shows the status title from the captured map; the detail `amount` field is the bold money text |
| `OrderCells.CartColumnsUseOrderCurrency` | assets/plugins/commerce/src/Module/Controllers/OrdersController.php:440-469 | the cart's `price` and `summary` columns are the money text of the line's `price` and `total` in the order's currency |
| `OrderCells.SubtotalColumnsUseOrderCurrency` | assets/plugins/commerce/src/Module/Controllers/OrdersController.php:487-501 | the subtotal `price` column is the money text of the row's `price` in the order's currency |
| `OrderCells.LineAmountIgnoresLineCurrency` | assets/plugins/commerce/src/Module/Controllers/OrdersController.php:489-497 | a cart or subtotal money cell depends on the line's amount only, not on any currency of the line |
| `OrderCells.EmailCell` | assets/plugins/commerce/src/Module/Controllers/OrdersController.php:235-240 | the cell is non-empty exactly when the email is not PHP-empty and passes the email check, and then it is the mailto link of that address |
| `OrderCells.MethodTitleCell` | assets/plugins/commerce/src/Module/Controllers/OrdersController.php:263-272 | `fields[delivery/payment_method_title]` when not PHP-empty, else `''`; never `"0"` |
| `OrderCells.StatusTitleCell` | assets/plugins/commerce/src/Module/Controllers/OrdersController.php:317-319 | an id the status map does not hold gives `''`; a non-empty result is the title stored for the order's status id |
| `OrderCells.StatusTitleOfKnownStatus` | assets/plugins/commerce/src/Module/Controllers/OrdersController.php:318 | with distinct ids, a known status id shows exactly its own title |
| `OrderCells.ItemImageCell` | assets/plugins/commerce/src/Module/Controllers/OrdersController.php:403-416 | an `<img>` of the thumbnail exactly when the configured image attribute is not PHP-empty, else `''` |
| `OrderCells.ItemOptionsCell` | assets/plugins/commerce/src/Module/Controllers/OrdersController.php:426-431 | the JSON of the options in `<pre>` exactly when the options are not PHP-empty, else `''` |
| `OrderCells.OrderNumberCell` | assets/plugins/commerce/src/Module/Controllers/OrdersController.php:303-305 | the order id after `#`, in bold |
| `OrderCells.StatusOptions` | assets/plugins/commerce/src/Module/Controllers/OrdersController.php:280-282 | one option per status, in the status map's order, each selected exactly when its id `==` the order's `status_id` |
| `OrderCells.AtMostOneSelected` | assets/plugins/commerce/src/Module/Controllers/OrdersController.php:281 | with distinct status ids at most one option is selected |
| `OrderCells.UnknownStatusSelectsNone` | assets/plugins/commerce/src/Module/Controllers/OrdersController.php:281 | a `status_id` equal to no status id selects no option |
| `OrderCells.StatusOptionsHtml` | assets/plugins/commerce/src/Module/Controllers/OrdersController.php:278-282 | the accumulated `$out` is the rendering of those options, in order |
| `OrderCells.StatusSelectCell` | assets/plugins/commerce/src/Module/Controllers/OrdersController.php:277-285 | a `<select name="status_id">` whose change handler goes to the change-status URL for the order's id, holding exactly the rendered options |
| `OrderCells.OrdersListColumns` | assets/plugins/commerce/src/Module/Controllers/OrdersController.php:203-289 | the nine list columns in declaration order, distinct keys, strictly increasing weights, no value bound |
| `OrderCells.OrderGroups` | assets/plugins/commerce/src/Module/Controllers/OrdersController.php:291-386 | the three detail groups, each 33.333% wide, each with distinct keys, increasing weights, no value bound |
| `OrderCells.OrderCartColumns` | assets/plugins/commerce/src/Module/Controllers/OrdersController.php:388-471 | the seven cart columns, distinct keys, increasing weights, no value bound |
| `OrderCells.OrderSubtotalsColumns` | assets/plugins/commerce/src/Module/Controllers/OrdersController.php:473-503 | the two subtotal columns, distinct keys, increasing weights, no value bound |

## Left out

- `index` (lines 24-68): the DocLister list, pagination templates, the fixed `makePaginateUrl` override and view rendering are foreign snippets and templating; only its column definitions are modelled.
- `show` apart from its two binding loops: reading `order_id` with `filter_input`, its not-found redirect, sorting the cart and subtotal columns, the DocLister cart, the history and user queries, and rendering are I/O or foreign code.
- `registerRoutes` (lines 15-22) is a constant routing table with no rule to state.
- `invokeEvent` hooks may change anything; the model takes the definitions as they are after the hook.
- `sortFields`, `processFields` and `injectPrepare` belong to the parent controller, which is not part of this model; they are function parameters.
- Currency formatting, the email syntax check, date formatting, `makeUrl`, phpthumb and `json_encode` are abstract functions; the date closure is only dispatched in `Resolve`.
- `new \DateTime($data['created_at'])` (lines 218 and 311) throws on an unparsable date and so fails the render; `formatDate` is total and that exception is not modelled.
- The status table query and the validator are I/O or host code: the status rows and the validator's result are parameters.
- `loadOrder` also makes the loaded order the processor's current order; the model records each call in `loads` but not that state.
- Status ids are compared as strings. PHP turns a canonical numeric id into an integer key and compares it loosely with a string `status_id`, so a non-canonical value such as `"03"` would select status 3 in the list; the model treats it as unknown.
- `LooseEqualsText`: numeric strings are compared by content, not numerically (`"1e1" == "10"` is true in PHP); currency codes are not numeric in this sense.
- Request parameters are strings; array-valued request parameters are not modelled. Row attributes nest one level deep.
- A field value that is `null` and one that was never set are both `None`.
- A missing localisation key gives `None` (PHP's `null`) in titles and redirect messages.
- The `statuses` property is declared outside this file; it is taken to start as `null`.
- `Cart.php` declares method signatures only.
