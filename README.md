# Admin transaction page and Google login: a Dafny model

This project models the decision logic of two pages of an e-commerce admin
front end written in React and TypeScript.

- **Transaction management** (`TransactionManagement`, pure). The page shows one
  order. When no order has loaded, a zero-valued placeholder stands in for it.
  The page chooses between a redirect to `/404`, a loading skeleton and the
  details view. It colours the status, shows each item's line total, and
  builds the `{ userId, orderId }` argument that both the update and the
  delete button send.
- **Login** (`Login`, mixed). `loginHandler` is modelled twice. `HandlerEffects`
  is a pure reference definition of the toasts, dispatches and API requests
  of one run. `LoginPage.LoginHandler` is the step-by-step handler on a class
  that holds the toast log, the dispatch log, the auth state and the request
  log. Its postcondition ties the new state to `HandlerEffects`.
  The popup, the login mutation and the user lookup are inputs. Each one
  either resolves with a value or rejects; a rejection lands in the catch block.
- `Js` holds the two JavaScript operators the pages use on missing values:
  `??` (`Coalesce`) and `||` on strings (`OrElse`).
- `Types` holds the order, order item and user records.

JavaScript truthiness is written out. `'data' in res && res.data` becomes an
`Option`: an absent key and a falsy value both read as `None`. An object is
always truthy, so `data?.order || defaultOrder` falls back only when the order
is missing. In the `userData` defaults, `??` keeps the empty string. In the
request arguments, `||` replaces it.

Facts about the code that the model keeps:
- `transactionmanagement.tsx:64` redirects to `/404` on any `isError`, whatever the cause of the error.
- `status` is compared as a plain string (`transactionmanagement.tsx:113-119`). Every string other than
  `"Delivered"` and `"Shipped"` is shown red.
- The placeholder replaces a missing order as a whole (`transactionmanagement.tsx:43`). A missing field
  of a loaded order is not replaced.
- The `order && ...` guard (`transactionmanagement.tsx:74`) always holds, because the snapshot is an
  object. `RenderPage` therefore shows details whenever there is no error and no loading.
- The try block of `login.tsx:20-62` also covers the popup-closing step (60-62), which runs after the
  dispatch. A throw there keeps the dispatch and the toasts already shown; the catch block adds its toast.

## Model

| member | source | states |
|---|---|---|
| Js.Coalesce | src/pages/login.tsx:30-32 | `??`: a present value is kept, the empty string included; only a missing one becomes the fallback |
| Js.OrElse | src/pages/admin/management/transactionmanagement.tsx:41 | the `or` operator on strings: a non-empty string is kept; a missing value or `""` becomes the fallback |
| TransactionManagement.DefaultOrder | src/pages/admin/management/transactionmanagement.tsx:16-33 | the placeholder has every shipping field, the status, the user name and both ids `""`, every amount 0 and no items |
| TransactionManagement.Snapshot | src/pages/admin/management/transactionmanagement.tsx:43 | with data holding an order, the snapshot is exactly that order; otherwise it is the zero-valued placeholder |
| TransactionManagement.QueryId | src/pages/admin/management/transactionmanagement.tsx:41 | a missing route id is queried as `""`; a present one is used unchanged |
| TransactionManagement.StatusColour | src/pages/admin/management/transactionmanagement.tsx:113-119 | purple exactly for `"Delivered"`, green exactly for `"Shipped"`, red exactly for every other string, `""` included |
| TransactionManagement.ProductCard | src/pages/admin/management/transactionmanagement.tsx:137-151 | a card shows the item's name, price and quantity, links to `/product/<productId>`, and its line total is price × quantity (0 for quantity 0) |
| TransactionManagement.ProductCards | src/pages/admin/management/transactionmanagement.tsx:83-85 | one card per order item, in the items' order, card i being the card of item i |
| TransactionManagement.Details | src/pages/admin/management/transactionmanagement.tsx:96-123 | the address line is the template of line 100; every line total is price × quantity; total, subtotal, tax, discount and shipping are the stored fields, never recomputed; the status class is the status's colour |
| TransactionManagement.RenderPage | src/pages/admin/management/transactionmanagement.tsx:64-74 | an error redirects to `/404` whatever the loading flag; else loading shows the skeleton; otherwise the details of the snapshot always render, and without an order they show no items, total 0 and red |
| TransactionManagement.MutationRequest | src/pages/admin/management/transactionmanagement.tsx:49-52 | `orderId` is the order's id; `userId` is the signed-in user's id, and is `""` exactly when there is no user or its id is `""` |
| TransactionManagement.Handler | src/pages/admin/management/transactionmanagement.tsx:48-62 | a button issues its own mutation with the snapshot's request and passes `/admin/transaction` to the feedback routine; `orderId` is `""` while the placeholder is shown |
| TransactionManagement.UpdateAndDeleteAgree | src/pages/admin/management/transactionmanagement.tsx:48-62 | update and delete send identical `{userId, orderId}` arguments and pass the same destination |
| TransactionManagement.StoredTotalIsShown | src/pages/admin/management/transactionmanagement.tsx:107 | worked example only (the general facts are the contracts of `Details` and `ProductCard`): one item of price 100 and quantity 2 shows the line total 200, and the stored total 226 is shown as is |
| Login.UserData | src/pages/login.tsx:29-37 | `_id` is the uid and `role` is `"user"`; name and email default to `"Unknown"` and photo to `""` only when missing; gender and date of birth are the form's values |
| Login.ErrorText | src/pages/login.tsx:50-51 | the error's `data.message` when present, else `"An error occurred"` |
| Login.Classify | src/pages/login.tsx:41-57 | the data shape exactly when `data` is truthy, with its message; the error shape exactly when only `error` is, with its text; the other shape exactly when neither is |
| Login.Reduce | src/pages/login.tsx:45-56 | `userExist(u)` signs `u` in; `userNotExist` signs out |
| Login.ReduceAll | src/pages/login.tsx:41-57 | after a sequence of dispatches the auth state is decided by the last action alone; no dispatch leaves it unchanged |
| Login.Caught | src/pages/login.tsx:63-65 | the catch block keeps every toast, dispatch and request of the try block and appends "Sign In Failed" |
| Login.HandlerEffects | src/pages/login.tsx:19-66 | no popup user: only "User authentication failed", no login call, no dispatch; login is called exactly when there is a user, with the built record; exactly one dispatch exactly when a user is present and neither the login call nor the lookup rejects; a rejection of the popup, the login call or the lookup ends with "Sign In Failed" and dispatches nothing; a rejected popup or login call shows only "Sign In Failed"; a throw while closing the popup adds "Sign In Failed" as the second toast after the one dispatch; one or two toasts per run |
| Login.DataResultOutcome | src/pages/login.tsx:41-48 | a `data` result shows its message as a success toast, looks the user up by uid, and dispatches `userExist(u)` when the lookup returns `u`, else `userNotExist` |
| Login.ErrorResultOutcome | src/pages/login.tsx:49-53 | an `error` result shows its message or the generic one and dispatches `userNotExist` |
| Login.OtherResultOutcome | src/pages/login.tsx:54-57 | neither `data` nor `error`: "An unexpected error occurred" and `userNotExist` |
| Login.LookupRejectionKeepsEarlierToast | src/pages/login.tsx:42-64 | a lookup that throws after a successful login keeps the success toast, adds "Sign In Failed" and dispatches nothing |
| Login.CloseFailureIsCaught | src/pages/login.tsx:41-65 | for every run that reaches the popup-closing step, a throw there gives exactly the toasts, dispatch and requests of the same run without the throw, followed by "Sign In Failed" |
| Login.CloseFailureKeepsDispatch | src/pages/login.tsx:41-65 | after a `data` result and a found user, a throw while closing the popup keeps the success toast and the `userExist(u)` dispatch, then adds "Sign In Failed" |
| Login.LoginPage.LoginHandler | src/pages/login.tsx:19-66 | the handler, including a throw from the popup-closing step, appends exactly the toasts, dispatches and requests of `HandlerEffects`, in order, and moves the auth state by those dispatches |

## Left out

- The RTK Query hooks (`useOrderDetailsQuery`, `useUpdateOrderMutation`, `useDeleteOrderMutation`, `useLoginMutation`) and the network behind them. Their results are inputs.
- `responseToast` in `utils/features` is not part of this model. Its notifications and navigation are not modelled; the model stops at what is handed to it.
- The user reducer is not part of this model. `Reduce` takes `userExist` and `userNotExist` at their names: the first signs the user in, the second signs out.
- The order-status transition (Processing, then Shipped, then Delivered) happens on the server and appears nowhere in this code.
- Login.HandlerEffects: the calls to `toast.success`, `toast.error` and `dispatch` are taken not to throw. Only the popup, the login call, the lookup and the popup-closing step can throw.
- Firebase `signInWithPopup`, `GoogleAuthProvider` and what closing the popup window does (`window.opener`, `window.close()`). These are identity-provider and browser I/O. The popup's result is an input, and closing the window is reduced to whether it throws.
- The React state behind the gender and date inputs. Their current values are parameters of the handler.
- Markup, styling, the sidebar, the skeleton, and the product image URL (it depends on the server address, a configuration value).
- `src/pages/order-details.tsx`. It copies `data.order` into state, toasts `err.data.message` on a query error, shows only a skeleton while no user is signed in, and otherwise only renders.
- Floating-point behaviour of `price * quantity` and the formatting of numbers. Amounts are exact reals.
- Async scheduling, and the update and delete requests being issued concurrently without a lock.
