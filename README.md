# Trading dashboard: store, order handler, order form and order history

This project models the logic of a small simulated stock-trading dashboard, and proves
properties of that model. The dashboard has a Go backend and a React frontend.

- **Backend store** (`Service.Store`): an in-memory stock table keyed by symbol, with
  upsert semantics, and an append-only order log. A price report updates a listed stock
  in place and records its percentage change. The change is recorded only when the old
  price is non-zero. A report for an unknown symbol inserts the stock with no change.
  The snapshots handed out are copies. The stock snapshot's order is left open, as Go
  map iteration is unordered.
- **HTTP handlers** (`Handlers.Handler`): `POST /orders` rejects a body that fails to
  bind (400 with the binder's text) or fails validation (400, "Invalid order details").
  Validation fails on an empty symbol, a side other than `buy`/`sell`, or a non-positive
  quantity or price. Otherwise the handler stamps the order with a server id and time,
  appends it, and answers 201 with the stored order. `GET /prices` and `GET /orders`
  return the store's snapshots.
- **Order form** (`OrderFormComponent.OrderForm`): a draft of four text inputs, a
  case-insensitive prefix autocomplete over the known stocks, picking a candidate,
  dismissing the dropdown by clicking outside it, and a two-phase submit (request sent /
  request settled).
- **Order history** (`OrdersTableComponent.OrdersTable`): each fetch sorts the delivered
  array in place, newest first, and replaces the shown list; a failed fetch keeps it.
  The sort is stable, as JavaScript's `Array.prototype.sort` is, and it is proved so.
  The table shows a placeholder row exactly when there are no orders.

Modelling choices:
- Prices are `real`. Timestamps are `int`, an opaque ordered clock reading.
- The server's id and clock, the JSON binder's verdict and the result of the create-order
  request are parameters.
- Price formatting (`toFixed(2)`) and the number parsers (`parseInt`, `parseFloat`) are
  function parameters.
- Lower-casing is ASCII lower-casing.

## Model

| member | source | states |
|---|---|---|
| `Service.PercentChange` | backend/service/store.go:62 | the recorded change is ((new - old) / old) * 100, defined only for a non-zero old price |
| `Service.PercentChangeSign` | backend/service/store.go:61-63 | for a positive old price, the recorded change is positive iff the price rose, negative iff it fell, zero iff unchanged |
| `Service.PercentChangeInverse` | backend/service/store.go:62 | the new price is recovered as old + old * change / 100 |
| `Service.PriceUpdated` | backend/service/store.go:59-71 | key set becomes old keys plus the symbol; every other entry is unchanged; a listed symbol keeps its symbol, gets the new price, and its change is recomputed only when the old price is non-zero (otherwise kept); an unknown symbol is inserted with the new price and change 0 |
| `Service.PriceUpdatedWellKeyed` | backend/service/store.go:65-71 | a price report keeps every stock filed under its own symbol |
| `Service.RepeatedPriceRecordsNoChange` | backend/service/store.go:61-63 | reporting the current non-zero price again records a change of 0 |
| `Service.Store.constructor` | backend/service/store.go:16-21 | a new store has no stocks and no orders |
| `Service.Store.GetStocks` | backend/service/store.go:24-33 | the copy has one entry per key and as many entries as keys; each entry is the stored stock for its symbol; no symbol appears twice; no order is promised |
| `Service.Store.AddOrder` | backend/service/store.go:36-40 | the log becomes the old log followed by the order; the stock table is unchanged |
| `Service.Store.GetOrders` | backend/service/store.go:43-52 | the copy has the log's length and, at each index, the stored order at that index |
| `Service.Store.UpdateStockPrice` | backend/service/store.go:55-72 | the table becomes `PriceUpdated` of the old table; the order log is unchanged; the keying invariant is kept |
| `Handlers.ValidOrderDetails` | backend/handlers/handlers.go:38 | an order is admitted iff its symbol is non-empty, its side is "buy" or "sell", and its quantity and price are positive |
| `Handlers.Stamped` | backend/handlers/handlers.go:44-45 | the recorded order keeps the request's symbol, side, quantity and price, and takes the server's id and time whatever the client sent |
| `Handlers.RejectionCauses` | backend/handlers/handlers.go:38-41 | an empty symbol, a side other than buy/sell, or a non-positive quantity or price each makes an order invalid; an order with none of these defects is valid |
| `Handlers.AdmissionIgnoresClientStamp` | backend/handlers/handlers.go:38-45 | whether an order is admitted does not depend on its id or timestamp |
| `Handlers.Handler.constructor` | backend/handlers/handlers.go:17-20 | the handler serves the given store |
| `Handlers.Handler.GetPrices` | backend/handlers/handlers.go:24-27 | status 200 with a snapshot of the stock table (one entry per key, any order) |
| `Handlers.Handler.CreateOrder` | backend/handlers/handlers.go:30-50 | a bind failure gives 400 with the bind error text; an invalid order gives 400 "Invalid order details"; both leave orders and stocks unchanged; a valid order is stamped, appended exactly once, and echoed with 201; stocks always unchanged |
| `Handlers.Handler.GetOrders` | backend/handlers/handlers.go:53-56 | status 200 with the order log in insertion order |
| `OrderFormComponent.MatchesPrefix` | frontend/src/components/OrderForm.jsx:40 | a stock matches iff its ASCII-lower-cased symbol starts with the ASCII-lower-cased typed value |
| `OrderFormComponent.SuggestionsCaseInsensitive` | frontend/src/components/OrderForm.jsx:39-41 | two typed values that lower-case alike give the same candidates, so case never changes the suggestions |
| `OrderFormComponent.Suggestions` | frontend/src/components/OrderForm.jsx:39-41 | every candidate matches the typed prefix case-insensitively, and there are no more candidates than stocks |
| `OrderFormComponent.SuggestionsExact` | frontend/src/components/OrderForm.jsx:39-41 | a matching stock occurs among the candidates exactly as often as in the stock list; a non-matching stock never occurs |
| `OrderFormComponent.SuggestionsMembership` | frontend/src/components/OrderForm.jsx:39-41 | a stock is a candidate iff it is listed and its lower-cased symbol starts with the lower-cased value |
| `OrderFormComponent.SuggestionsKeepOrder` | frontend/src/components/OrderForm.jsx:39-41 | the candidates are a subsequence of the stock list: the original relative order is kept |
| `OrderFormComponent.SuggestionsNonEmpty` | frontend/src/components/OrderForm.jsx:39-43 | there is a candidate iff some listed stock matches |
| `OrderFormComponent.FormData.Set` | frontend/src/components/OrderForm.jsx:32-35 | setting input `f` gives it the new value and leaves the other three inputs as they were |
| `OrderFormComponent.OrderForm.DropdownShown` | frontend/src/components/OrderForm.jsx:114 | the dropdown is rendered iff `showSuggestions` is set and there is at least one candidate |
| `OrderFormComponent.OrderForm.constructor` | frontend/src/components/OrderForm.jsx:5-14 | the draft starts as symbol '', side 'buy', quantity '', price ''; no error, not loading, no candidates, no dropdown |
| `OrderFormComponent.OrderForm.HandleChange` | frontend/src/components/OrderForm.jsx:30-49 | only the edited input changes; a non-empty symbol sets the candidates to `Suggestions` and shows them, and the dropdown (line 114) is visible iff a stock matches; an empty symbol clears and hides them; other inputs leave the candidates alone |
| `OrderFormComponent.OrderForm.HandleSuggestionClick` | frontend/src/components/OrderForm.jsx:51-59 | symbol and formatted price come from the stock; side and quantity are kept; candidates emptied and hidden, so the dropdown is gone |
| `OrderFormComponent.OrderForm.HandleClickOutside` | frontend/src/components/OrderForm.jsx:18-28 | a press outside the symbol wrapper hides the candidates; a press inside changes nothing |
| `OrderFormComponent.OrderForm.StartSubmit` | frontend/src/components/OrderForm.jsx:61-71 | loading is set and the error cleared; the payload carries the draft's symbol and side and the parsed quantity and price; the draft is unchanged |
| `OrderFormComponent.OrderForm.CompleteSubmit` | frontend/src/components/OrderForm.jsx:72-79 | on success the draft resets and the callback runs once if supplied (never otherwise); on failure the error is the thrown message and the draft is kept; loading is false either way |
| `OrdersTableComponent.NewestFirstSameHead` | frontend/src/components/OrdersTable.jsx:12 | two newest-first arrangements of the same distinctly stamped orders start with the same order |
| `OrdersTableComponent.NewestFirstUnique` | frontend/src/components/OrdersTable.jsx:12 | with distinct timestamps, a newest-first permutation is unique, so T1 < T2 < T3 (distinct at the browser's millisecond resolution) is shown as T3, T2, T1 |
| `OrdersTableComponent.StableSortUnique` | frontend/src/components/OrdersTable.jsx:12 | two newest-first permutations of a list that keep its tie order are equal, so the shown history is determined by the fetched list |
| `OrdersTableComponent.SortNewestFirst` | frontend/src/components/OrdersTable.jsx:12 | the array is sorted in place by non-increasing timestamp, is a permutation of its old contents, and orders with equal timestamps keep their relative order (the stability of JavaScript's sort) |
| `OrdersTableComponent.Rows` | frontend/src/components/OrdersTable.jsx:43-73 | one row per order in list order when there are orders; the placeholder row is present iff the list is empty, and then it is the only row |
| `OrdersTableComponent.OrdersTable.constructor` | frontend/src/components/OrdersTable.jsx:5 | the shown list starts empty |
| `OrdersTableComponent.OrdersTable.FetchOrders` | frontend/src/components/OrdersTable.jsx:7-20 | a delivered array replaces the shown list outright (no merge), sorted newest first, a permutation of what was delivered, with equal timestamps in delivered order; a failed fetch keeps the old list |

## Left out

- `OrderFormComponent.OrderForm.HandleChange`: input names are the form's four inputs; a JavaScript event with another name would add a new key to the draft, which the model cannot express.
- `OrderFormComponent.MatchesPrefix`: lower-cases ASCII letters only; full Unicode `toLowerCase` is not modelled.
- The store's `sync.RWMutex` and every concurrent caller: the operations are modelled as sequential.
- backend/service/hub.go, backend/service/finnhub.go, backend/service/price_generator.go: goroutines, channels, websockets, randomness and timers are not part of this model. Their only store effect is repeated `UpdateStockPrice` calls, which the store model covers.
- backend/main.go: route and CORS wiring and environment checks are not part of this model.
- frontend/src/services/api.js, frontend/src/hooks/useWebSocket.js, frontend/src/App.jsx and frontend/src/components/LivePrices.jsx: fetch wrappers, the websocket lifecycle and static rendering are not part of this model. The create-order outcome, with its already-chosen error message, is an input of `CompleteSubmit`.
- Floating point: prices are exact reals, so IEEE-754 rounding in the percentage change is not modelled. `toFixed(2)`, `parseInt` and `parseFloat` are opaque function parameters.
- `uuid.New()`, `time.Now()` and gin's `ShouldBindJSON` are parameters. JSON encoding of responses and of timestamps is not modelled; the history sort compares timestamps as integers rather than parsing dates.
- `OrdersTableComponent.SortNewestFirst`: its integer timestamps stand for the millisecond values the browser compares, not Go's nanosecond `time.Now()` stamps. `new Date(...)` keeps only milliseconds, so two orders stamped within one millisecond compare equal in the browser and, because the sort is stable, are shown in fetched (oldest-first) order.
- The stock table holds `*Stock` references in Go; the model holds stock values. Other code reading `Stocks` directly is not part of this model.
- React state batching and render scheduling: each handler's state updates take effect together. Overlapping submissions are two independent `StartSubmit`/`CompleteSubmit` pairs.
- Rendering of the form (error banner, disabled button, labels) and of the price table is not modelled beyond the dropdown condition and the history table rows.
