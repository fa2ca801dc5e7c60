# Drive-through order ledger

A Dafny model of the order store behind the drive-through service's HTTP
backend (`backend/main.py`). The service keeps one in-memory list of orders
and an identifier counter that starts at 1. `GET /orders` returns the list.
`GET /orders/total` sums each menu item ("burger", "fries", "drink") over the
stored orders. `POST /orders` passes the customer's text to a language model,
which answers with a call to `place_order(items)` or `cancel_order(order_id)`.
The service then applies that call to the list.

- `wrappers.dfy` (module `Wrappers`): `Option`.
- `orders.dfy` (module `Orders`): the data model and pure functions.
  - Data: the menu, `Order`, the decoded model reply `Reply`, and the request
    outcome `Response` with its HTTP status.
  - The ledger value `State` and its invariant `Valid`.
  - What a place, a cancel, a dispatched reply and the totals do to a state:
    `ApplyPlace`, `ApplyCancel`, `Dispatch`, `Totals`.
- `ledger.dfy` (module `Backend`): class `Ledger`, the module-level `orders`
  list and `order_counter` as fields. Its methods use the source's loops and
  in-place updates. Each method is proved against the matching function of
  `Orders`.
- `properties.dfy` (module `OrderProperties`): lemmas about requests in
  sequence.
  - Every reply keeps the invariant.
  - Identifiers increase and are never reused after a cancellation.
  - A cancel removes exactly one order.
  - The totals always match the stored orders.

The model's reply is taken as already decoded from JSON. A key that is
missing from the decoded arguments is `None`. The service reads that key
unguarded, so the request fails with a `KeyError`. The model returns this
as `MissingArgument` (status 500).

## Model

| member | source | states |
|---|---|---|
| Orders.KeepPositive | backend/main.py:94 | a key is kept iff the request has it with a quantity > 0, with the requested quantity; the result is empty iff no quantity is positive |
| Orders.IndexOf | backend/main.py:103-104 | the first position whose order has the id: the order there has that id and none before it does; None iff the id is not in the ledger |
| Orders.ApplyPlace | backend/main.py:93-100 | success iff some quantity is positive; on success one order with id = old counter is appended after the unchanged earlier orders, its items are exactly the requested entries with a quantity > 0 (every one of them, with its requested quantity), and the counter grows by 1; otherwise 400 "No valid items in order." with the state unchanged |
| Orders.ApplyCancel | backend/main.py:101-107 | answers "cancelled" iff the id is in the ledger, else 404 naming the id with the state unchanged; the counter never changes; a cancel removes exactly one order |
| Orders.Dispatch | backend/main.py:88-108 | a place_order call is the place of its items and a cancel_order call the cancel of its id; either call without its argument fails with a KeyError (500) naming the key; no function call, or a call to any other function, gives 400 "Could not understand request."; every failure leaves the state unchanged; the counter grows by 1 exactly on a placed order |
| Orders.Totals | backend/main.py:40-46 | the totals exist exactly when every stored item is on the menu (otherwise the read fails with a KeyError), and then have exactly the menu's keys |
| Orders.Response.Status | backend/main.py:95-108 | status >= 400 exactly for the failure outcomes (400, 404, and 500 for an unhandled KeyError) |
| Backend.Ledger.constructor | backend/main.py:19-21 | a fresh store is empty, has counter 1 and is valid |
| Backend.Ledger.GetOrders | backend/main.py:36-38 | returns the stored list without changing anything; in a valid store its ids strictly increase and lie in [1, counter) |
| Backend.Ledger.Total | backend/main.py:40-46 | the nested accumulation loops return `Totals(orders)`: every menu item mapped to its summed quantity, or a failure when a stored item is off the menu |
| Backend.Ledger.Place | backend/main.py:93-100 | keeps the store valid; the new list, counter and response are those of `ApplyPlace` on the old state |
| Backend.Ledger.Cancel | backend/main.py:101-107 | the linear search and pop keep the store valid and produce exactly `ApplyCancel` of the old state |
| Backend.Ledger.Handle | backend/main.py:88-108 | keeps the store valid; the new state and response are `Dispatch` of the old state and the reply |
| OrderProperties.InitialState | backend/main.py:20-21 | the starting ledger is valid and its totals are zero for every menu item |
| OrderProperties.DispatchKeepsValid | backend/main.py:93-107 | any reply keeps the invariant: ids strictly increasing, in [1, counter), every order non-empty with positive quantities |
| OrderProperties.CancelRemovesExactly | backend/main.py:103-106 | in a valid ledger, cancelling the id of the order at position k removes exactly that order, keeps the rest in order and keeps the counter |
| OrderProperties.CancelDropsId | backend/main.py:103-107 | in a valid ledger, the ids after a cancel are the ids before minus the cancelled one |
| OrderProperties.RunKeepsValid | backend/main.py:97-99 | after any sequence of replies the ledger is still valid and the counter is no lower |
| OrderProperties.DispatchNoReuse | backend/main.py:97-105 | an id that was issued and is no longer present stays below the counter and absent after one more reply |
| OrderProperties.CancelledIdNeverReused | backend/main.py:97-106 | an id that was issued and is absent never reappears, whatever replies follow |
| OrderProperties.SumQtyRemoveAt | backend/main.py:43-45 | removing the order at position k lowers an item's summed quantity by exactly that order's quantity |
| OrderProperties.SumQtyZeroIff | backend/main.py:42-45 | with positive quantities, a summed quantity is >= 0 and is 0 iff no order holds the item |
| OrderProperties.TotalsMeaning | backend/main.py:42-46 | in a valid ledger with menu items only, the totals exist, have exactly the menu's keys, and each is >= 0 and 0 iff no order holds the item |
| OrderProperties.TotalsAfterPlace | backend/main.py:42-46 | a successful place adds to each menu item's total exactly its requested quantity when positive, and nothing otherwise |
| OrderProperties.TotalsAfterCancel | backend/main.py:42-46 | a cancel subtracts exactly the cancelled order's quantities from the totals |
| OrderProperties.TotalsNeverFail | backend/main.py:65-69 | while every place call names only menu items, as the function schema demands, the totals never fail |
| OrderProperties.Walkthrough | backend/main.py:88-108 | from a fresh ledger: placing 2 burgers and 1 fries gives order 1 with totals 2/1/0; cancelling it gives an empty ledger with counter 2; cancelling 99 gives 404 for 99; an all-zero place gives 400 with nothing changed |

## Left out

- The language-model client, its chat-completions call and the two function schemas (backend/main.py:23-25, 55-87): a remote network service. Its reply is the `Reply` input. The schema's restriction of keys to the menu is the hypothesis of `TotalsNeverFail`. Its quantity minimum of 1 is not assumed; the ledger filters quantities itself.
- `json.loads` of the function arguments and malformed JSON (backend/main.py:91-92): a foreign library. Values of the wrong JSON type (a string quantity, a non-integer id) are left out too: the model types items as `map<string, int>` and the id as `int`.
- The FastAPI app, CORS middleware, Pydantic models, response wrapping (`{"total": ...}`), message formatting and `uvicorn.run` (backend/main.py:1-17, 29-34, 112-114): framework I/O. The HTTP outcome is the `Response` datatype. Its message strings with a formatted id are represented by the variant and the id.
- Key order of the returned JSON objects: Python dicts keep insertion order; Dafny maps are unordered.
- `GetOrders` returns the list by value. Aliasing of the returned list with the stored one is not modelled.
- Concurrent requests: the service has no locking; the model is sequential.
- The API key lookup (backend/main.py:24): configuration.
