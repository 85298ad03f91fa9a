# Stellar Burgers: assembly and order-submission state, in Dafny

This project models the client-side state of the Stellar Burgers web shop:
the burger constructor (one optional bun and an ordered list of fillings,
each placed part carrying its own instance id), the order-submission slice
that follows the `fetchOrders` and `retrieveOrderByNumber` requests, the
constructor component's click guard, price and reset events, the catalog
slice with its three views by part type, and the profile/auth slice.

Files, one module per source file:

- `types.dfy` (`Types`): the records the slices share — catalog part,
  placed part, order, user — and `Option`.
- `burger_constructor_slice.dfy` (`BurgerConstructorSlice`): the assembly
  reducer. The Immer draft is the class `ConstructorState`, whose methods are
  the case reducers; the list surgery they do with `splice` is specified by
  `FindIndex`, `RemoveAt`, `InsertAt`, `Deleted` and `Moved`. A move keeps
  the length, the multiset of fillings, distinct ids, the counters and the
  price, and is undone by the reverse move. A delete keeps ids distinct,
  shortens the list by one exactly when the id is present and lowers the
  price by that filling's price. Adding a filling is undone by a delete of
  its id; adding a bun replaces the bun slot, which a delete never touches.
  `GetIngredientCounters` is the `forEach` loop that fills the counter
  dictionary. The counters and the order request agree on every catalog id
  only when no filling shares the bun's catalog id: the counters overwrite
  the bun's id with 2, while the request holds it twice plus once per such
  filling.
- `orders_history_slice.dfy` (`OrdersHistorySlice`): the submission reducer
  as the function `Reduce` over a snapshot, the class `OrdersState` whose
  methods assign the fields as the case reducers do, and a `Dispatch` method
  proved equal to `Reduce`. Lemmas over runs of actions: `orderId` is never
  written, `loading == orderClaim` holds under `clearOrders` and
  `fetchOrders.*`, and `retrieveOrderByNumber.fulfilled` breaks it.
- `ingredients_slice.dfy` (`IngredientsSlice`): the catalog load lifecycle as
  functions (the source returns new objects) and the `filter` views.
- `profile_user_slice.dfy` (`ProfileUserSlice`): the auth reducer as `Reduce`
  and as the class `ProfileState` with `HandlePending`, `HandleRejected` and
  the case methods.
- `burger_constructor.dfy` (`BurgerConstructor`): the component. The click
  guard `ClickDecision`, the request `OrderRequest` and the `Price` are
  functions; the click, the close of an order modal, the error timeout and
  the unmount are methods acting on a `ConstructorState`, an `OrdersState`
  and, for the click, a `ProfileState`. `FailedSubmission` and
  `SuccessfulSubmission` are clients that run a failed and a successful
  submission through these methods.

The orders and profile selectors are field reads. `OnOrderClick` reads the
request-in-flight flag through `OrdersState.SelectQuery` (`selectquery`) and
the user through `ProfileState.SelectUser` (`selectProfileUser`);
`OnErrorTimeout` reads the error through `OrdersState.SelectOrderError`
(`selectOrderError`). `OrdersState.SelectOrders` (`selectOrders`) feeds the
success modal: whether it shows and the order number; no modelled method
reads it. `selectBuns`, `selectSauces` and `selectMains` filter the catalog
by type; they are `IngredientsSlice.SelectBuns`, `SelectSauces` and
`SelectMains`, stated about in `ViewsCoverCatalog` and `ViewsAreDisjoint`.

Three behaviours of the code shape the model:

- Every order modal (loading, success and error) closes through
  `closeOrderModal`, which clears the assembly as well as the orders state.
  Only the error timeout and the unmount clear the orders state alone.
- `retrieveOrderByNumber.fulfilled` clears `loading` but leaves `orderClaim`
  set, and the click guard reads `orderClaim` as a request in flight.
- The rejected cases of the orders slice read `action.payload`, not
  `action.error.message` (the slice's test at
  `src/services/slices/ordersHistorySlice.test.ts:39-47` expects the latter):
  a rejection without a payload shows `Failed to create order`.

## Model

| member | source | states |
|---|---|---|
| `BurgerConstructorSlice.FindIndex` | src/services/slices/burgerConstructorSlice.ts:65-67 | -1 exactly when no filling has the id; otherwise an index whose filling has the id and before which none has it |
| `BurgerConstructorSlice.RemoveAt` | src/services/slices/burgerConstructorSlice.ts:70 | `splice(i, 1)`: one shorter, elements before `i` in place, elements after shifted down by one |
| `BurgerConstructorSlice.InsertAt` | src/services/slices/burgerConstructorSlice.ts:81 | `splice(i, 0, x)`: one longer, `x` at `i`, elements before in place, elements after shifted up by one |
| `BurgerConstructorSlice.Deleted` | src/services/slices/burgerConstructorSlice.ts:64-72 | an unknown id leaves the fillings unchanged; otherwise exactly the first filling with that id is cut out and the rest keep their order |
| `BurgerConstructorSlice.Moved` | src/services/slices/burgerConstructorSlice.ts:73-83 | the length is kept and the filling from `from` ends at `to` |
| `BurgerConstructorSlice.MovedAt` | src/services/slices/burgerConstructorSlice.ts:79-82 | where every element of a moved list comes from: the fillings between `from` and `to` shift by one towards `from`, the rest stay |
| `BurgerConstructorSlice.MovedBack` | src/services/slices/burgerConstructorSlice.ts:73-83 | moving from `to` back to `from` restores the fillings |
| `BurgerConstructorSlice.MovedIsPermutation` | src/services/slices/burgerConstructorSlice.ts:73-83 | a move keeps the length and the multiset of fillings |
| `BurgerConstructorSlice.RemoveAtKeepsDistinct` | src/services/slices/burgerConstructorSlice.ts:69-71 | cutting out a filling keeps ids distinct and leaves no filling with its id |
| `BurgerConstructorSlice.InsertAtKeepsDistinct` | src/services/slices/burgerConstructorSlice.ts:81 | inserting a filling whose id is not present keeps ids distinct |
| `BurgerConstructorSlice.MovedKeepsDistinct` | src/services/slices/burgerConstructorSlice.ts:79-82 | a move keeps instance ids pairwise distinct |
| `BurgerConstructorSlice.DeletedKeepsDistinct` | src/services/slices/burgerConstructorSlice.ts:64-72 | with distinct ids, a delete keeps them distinct and leaves no filling with the deleted id |
| `BurgerConstructorSlice.DeleteUndoesAdd` | src/services/slices/burgerConstructorSlice.ts:53-72 | appending a filling with a fresh id and deleting that id gives back the fillings |
| `BurgerConstructorSlice.OccurrencesAppend` | src/services/slices/burgerConstructorSlice.ts:38-40 | the per-catalog-id count of a concatenation is the sum of the counts |
| `BurgerConstructorSlice.MovedKeepsOccurrences` | src/services/slices/burgerConstructorSlice.ts:73-83 | a move does not change how often any catalog id occurs, so the counters do not change |
| `BurgerConstructorSlice.ConstructorState.constructor` | src/services/slices/burgerConstructorSlice.ts:21-24 | initial state: no bun, no fillings, ids trivially distinct |
| `BurgerConstructorSlice.ConstructorState.AddIngredient` | src/services/slices/burgerConstructorSlice.ts:52-63 | the placed part is the catalog part with the supplied id; a bun replaces the bun and leaves the fillings, anything else is appended and leaves the bun; with a fresh id the ids stay distinct |
| `BurgerConstructorSlice.ConstructorState.DeleteIngredient` | src/services/slices/burgerConstructorSlice.ts:64-72 | the fillings become `Deleted(old, id)`, one shorter exactly when the id was present; the bun is untouched; distinct ids stay distinct and the id is gone |
| `BurgerConstructorSlice.ConstructorState.MoveIngredient` | src/services/slices/burgerConstructorSlice.ts:73-83 | equal indices leave the fillings as they are, wherever they point; otherwise, for indices inside the list, the fillings become `Moved(old, from, to)`; the multiset is kept; bun untouched; ids stay distinct |
| `BurgerConstructorSlice.ConstructorState.ClearConstructor` | src/services/slices/burgerConstructorSlice.ts:84-87 | whatever the state, no bun and no fillings |
| `BurgerConstructorSlice.ConstructorState.GetIngredientCounters` | src/services/slices/burgerConstructorSlice.ts:32-48 | the keys are the catalog ids of the fillings and of the bun; each maps to its number of fillings, and the bun's id to exactly 2, overwriting its count |
| `OrdersHistorySlice.MessageOrFallback` | src/services/slices/ordersHistorySlice.ts:72-77 | the payload when it is present and non-empty, else the fallback; never empty when the fallback is not |
| `OrdersHistorySlice.Reduce` | src/services/slices/ordersHistorySlice.ts:51-95 | `orderId` is never written; `loading` is set exactly by the pending cases, `orderClaim` by the pending cases and `retrieveOrderByNumber.fulfilled`, an error exactly by the rejected cases and never empty; pending and rejected cases leave `orderDetails` |
| `OrdersHistorySlice.ClearOrdersResets` | src/services/slices/ordersHistorySlice.ts:52-57 | `clearOrders` gives the initial values for every field but `orderId`, and is idempotent |
| `OrdersHistorySlice.OrderIdNeverWritten` | src/services/slices/ordersHistorySlice.ts:51-95 | no run of actions changes `orderId` |
| `OrdersHistorySlice.OrderIdStaysNull` | src/services/slices/ordersHistorySlice.ts:13-19 | from the initial state `orderId` stays null |
| `OrdersHistorySlice.CreateFlowKeepsLoadingWithClaim` | src/services/slices/ordersHistorySlice.ts:52-77 | under `clearOrders` and `fetchOrders.*` alone, `loading == orderClaim` is kept |
| `OrdersHistorySlice.RetrieveBreaksLoadingWithClaim` | src/services/slices/ordersHistorySlice.ts:83-88 | after `retrieveOrderByNumber` pending then fulfilled, `loading` is false, `orderClaim` true and the order is the first returned |
| `OrdersHistorySlice.RejectionWithoutPayloadFallsBack` | src/services/slices/ordersHistorySlice.ts:72-94 | a rejection with an absent or empty payload shows `Failed to create order` / `Failed to retrieve order` |
| `OrdersHistorySlice.OrdersState.constructor` | src/services/slices/ordersHistorySlice.ts:13-19 | the initial state |
| `OrdersHistorySlice.OrdersState.ClearOrders` | src/services/slices/ordersHistorySlice.ts:52-57 | no order, both flags false, no error; `orderId` untouched |
| `OrdersHistorySlice.OrdersState.OnFetchPending` | src/services/slices/ordersHistorySlice.ts:61-65 | `loading` and `orderClaim` set, error cleared, order untouched |
| `OrdersHistorySlice.OrdersState.OnFetchFulfilled` | src/services/slices/ordersHistorySlice.ts:66-71 | the order stored, both flags false, no error |
| `OrdersHistorySlice.OrdersState.OnFetchRejected` | src/services/slices/ordersHistorySlice.ts:72-77 | both flags false, error is the payload or `Failed to create order`, order untouched |
| `OrdersHistorySlice.OrdersState.OnRetrievePending` | src/services/slices/ordersHistorySlice.ts:78-82 | `loading` and `orderClaim` set, error cleared, order untouched |
| `OrdersHistorySlice.OrdersState.OnRetrieveFulfilled` | src/services/slices/ordersHistorySlice.ts:83-88 | the first returned order stored, `loading` false while `orderClaim` stays true, no error |
| `OrdersHistorySlice.OrdersState.OnRetrieveRejected` | src/services/slices/ordersHistorySlice.ts:89-94 | both flags false, error is the payload or `Failed to retrieve order`, order untouched |
| `OrdersHistorySlice.OrdersState.Dispatch` | src/services/slices/ordersHistorySlice.ts:59-95 | routing an action to its case reducer changes the state exactly as `Reduce` does |
| `IngredientsSlice.ErrorText` | src/services/slices/ingredientsSlice.ts:45 | `message \|\| null`: the message when present and non-empty, else null |
| `IngredientsSlice.Reduce` | src/services/slices/ingredientsSlice.ts:31-46 | loading exactly while pending; the catalog replaced only by `fulfilled`; `pending` clears the error, `rejected` sets it to `message \|\| null`, `fulfilled` leaves it as it was |
| `IngredientsSlice.LoadLifecycle` | src/services/slices/ingredientsSlice.ts:32-46 | pending then fulfilled gives the payload with no error; pending then rejected keeps the old catalog with the message |
| `IngredientsSlice.FilterByType` | src/services/slices/ingredientsSlice.ts:59-69 | no longer than the catalog, and every kept part has the type |
| `IngredientsSlice.FilterKeepsKindCount` | src/services/slices/ingredientsSlice.ts:59-69 | each part of the type is kept as often as the catalog has it, no part of another type is kept |
| `IngredientsSlice.FilterKeepsOrder` | src/services/slices/ingredientsSlice.ts:59-69 | filtering distributes over concatenation, so catalog order is kept |
| `IngredientsSlice.ViewsAndOthersPartition` | src/services/slices/ingredientsSlice.ts:59-69 | bun, sauce and main views plus the parts of any other type add up to the catalog length |
| `IngredientsSlice.NoOthersIffAllKnown` | src/services/slices/ingredientsSlice.ts:59-69 | no part of another type iff every part is a bun, sauce or main |
| `IngredientsSlice.ViewsCoverCatalog` | src/services/slices/ingredientsSlice.ts:59-69 | the three selectors together are at most the catalog length, with equality iff every part has one of the three types |
| `IngredientsSlice.ViewsAreDisjoint` | src/services/slices/ingredientsSlice.ts:59-69 | no part is in two of the three views |
| `ProfileUserSlice.RejectionText` | src/services/slices/profileUserSlice.ts:48-57 | the payload if it is a string (even empty), else `Ошибка выполнения` |
| `ProfileUserSlice.Reduce` | src/services/slices/profileUserSlice.ts:144-208 | pending sets loading and clears the error; loading otherwise survives only `authChecked` and the unhandled `userLogout.rejected`; only the user-setting fulfilled cases change the user; only pending and rejected cases change the error; only `verifyUser.rejected` clears `isDataLoading`; the handled rejections store `handleRejected`'s text |
| `ProfileUserSlice.FailedLogoutStaysLoading` | src/services/slices/profileUserSlice.ts:202-206 | logout pending then rejected leaves `isLoading` true and no error |
| `ProfileUserSlice.DataLoadingStaysSet` | src/services/slices/profileUserSlice.ts:148-206 | once `isDataLoading` is set, no run without `verifyUser.rejected` clears it |
| `ProfileUserSlice.UserOnlySetByFulfilled` | src/services/slices/profileUserSlice.ts:152-206 | a run with none of the user-setting fulfilled cases leaves the user unchanged |
| `ProfileUserSlice.ProfileState.constructor` | src/services/slices/profileUserSlice.ts:35-40 | the initial state |
| `ProfileUserSlice.ProfileState.HandlePending` | src/services/slices/profileUserSlice.ts:43-46 | loading set, error cleared, user and `isDataLoading` untouched |
| `ProfileUserSlice.ProfileState.HandleRejected` | src/services/slices/profileUserSlice.ts:48-57 | loading cleared, error is the string payload or the default text, user and `isDataLoading` untouched |
| `ProfileUserSlice.ProfileState.OnAuthChecked` | src/services/slices/profileUserSlice.ts:148-150 | only `isDataLoading` set |
| `ProfileUserSlice.ProfileState.OnUserLoaded` | src/services/slices/profileUserSlice.ts:155-162 | `getUser`/`profileLogin` fulfilled: user stored, loading cleared, `isDataLoading` set |
| `ProfileUserSlice.ProfileState.OnUserStored` | src/services/slices/profileUserSlice.ts:175-190 | `updateUser`/`userRegister` fulfilled: user stored, loading cleared, `isDataLoading` untouched |
| `ProfileUserSlice.ProfileState.OnVerifyUserRejected` | src/services/slices/profileUserSlice.ts:165-169 | both flags cleared, error `Пользователь не зарегистрирован` |
| `ProfileUserSlice.ProfileState.OnVerifyUserFulfilled` | src/services/slices/profileUserSlice.ts:170-173 | loading cleared, `isDataLoading` set |
| `ProfileUserSlice.ProfileState.OnUserLogoutFulfilled` | src/services/slices/profileUserSlice.ts:203-206 | user null, loading cleared |
| `ProfileUserSlice.ProfileState.Dispatch` | src/services/slices/profileUserSlice.ts:152-207 | routing an action to its case changes the state exactly as `Reduce` does; `userLogout.rejected` changes nothing |
| `BurgerConstructor.CatalogIds` | src/components/burger-constructor/burger-constructor.tsx:67 | one catalog id per filling, in filling order |
| `BurgerConstructor.OrderRequest` | src/components/burger-constructor/burger-constructor.tsx:65-69 | length n+2, the bun's catalog id first and last, the fillings' catalog ids between in order |
| `BurgerConstructor.ClickDecision` | src/components/burger-constructor/burger-constructor.tsx:47-71 | no bun or a request in flight: nothing; otherwise no user: redirect to `/login` with `replace` and the current path; otherwise the order request |
| `BurgerConstructor.AtMostOneSubmission` | src/components/burger-constructor/burger-constructor.tsx:52-54 | after `fetchOrders.pending` every click is ignored |
| `BurgerConstructor.RequestCount` | src/components/burger-constructor/burger-constructor.tsx:65-69 | for any assembly, a catalog id occurs in the request twice if it is the bun's, plus as often as among the fillings |
| `BurgerConstructor.RequestMatchesCounters` | src/components/burger-constructor/burger-constructor.tsx:65-69 | when no filling shares the bun's catalog id, each catalog id occurs in the request as the counters show it: the bun twice, a filling as often as placed |
| `BurgerConstructor.RequestExceedsBunCounter` | src/services/slices/burgerConstructorSlice.ts:43-45 | when a filling shares the bun's catalog id, the request holds that id more than twice, while the counters show 2 for it |
| `BurgerConstructor.CatalogIdsCount` | src/components/burger-constructor/burger-constructor.tsx:67 | the mapped ids hold each catalog id as often as the fillings |
| `BurgerConstructor.Price` | src/components/burger-constructor/burger-constructor.tsx:78-86 | 0 for an empty assembly; at least twice the bun's price and at least the fillings' sum |
| `BurgerConstructor.FillingsPriceAppend` | src/components/burger-constructor/burger-constructor.tsx:81-84 | the fillings' sum of a concatenation is the sum of the sums |
| `BurgerConstructor.FillingsPriceSnoc` | src/components/burger-constructor/burger-constructor.tsx:81-84 | appending a filling adds exactly its price to the sum |
| `BurgerConstructor.FillingsPriceSplit` | src/components/burger-constructor/burger-constructor.tsx:81-84 | the fillings' sum is the sum of the two parts at any split position |
| `BurgerConstructor.FillingsPriceInsertAt` | src/components/burger-constructor/burger-constructor.tsx:81-84 | inserting a filling at any position adds exactly its price to the sum |
| `BurgerConstructor.FillingsPriceRemoveAt` | src/components/burger-constructor/burger-constructor.tsx:81-84 | cutting out a filling takes exactly its price off the sum |
| `BurgerConstructor.PriceAfterAdd` | src/components/burger-constructor/burger-constructor.tsx:78-86 | an appended filling adds its price; a new bun replaces the old bun's two halves with its own |
| `BurgerConstructor.PriceAfterDelete` | src/components/burger-constructor/burger-constructor.tsx:78-86 | a delete takes off the deleted filling's price, nothing for an unknown id |
| `BurgerConstructor.PriceAfterMove` | src/components/burger-constructor/burger-constructor.tsx:78-86 | a move leaves the price unchanged |
| `BurgerConstructor.PriceExample` | src/components/burger-constructor/burger-constructor.tsx:78-86 | a 1255 bun and a 3000 filling cost 5510 |
| `BurgerConstructor.OnOrderClick` | src/components/burger-constructor/burger-constructor.tsx:47-71 | the outcome is `ClickDecision` of the current assembly, `orderClaim` and the profile slice's user; only a placed order changes the orders state, by `fetchOrders.pending`; the assembly is untouched |
| `BurgerConstructor.CloseOrderModal` | src/components/burger-constructor/burger-constructor.tsx:73-76 | always empties the assembly and clears the orders state |
| `BurgerConstructor.OnErrorTimeout` | src/components/burger-constructor/burger-constructor.tsx:37-45 | with an error shown (a non-empty text, as JavaScript truthiness has it), clears the orders state only; otherwise changes nothing |
| `BurgerConstructor.OnUnmount` | src/components/burger-constructor/burger-constructor.tsx:29-35 | clears the orders state only |

## Left out

- The thunk bodies (`orderBurgerApi`, `getOrderByNumberApi`, `getIngredientsApi`, the user API calls, cookies, `localStorage`) are network and storage I/O; their outcomes enter the model as pending, fulfilled and rejected actions carrying payloads. The thunks' own message fallbacks (`error.message || ...`) are therefore not modelled; the reducers' fallbacks are.
- `verifyUser`'s body (dispatch `getUser` when a token cookie exists, then `authChecked`) reads a cookie; its effect is the sequence of those actions in a run.
- `nanoid` is not modelled: `AddIngredient` takes the new instance id from the caller, and distinct ids are kept when that id is fresh (`IsFreshId`).
- React rendering, hooks, `useMemo` and `createSelector` memoisation are not modelled; price and counters are computed on demand. The 5000 ms timer is the event `OnErrorTimeout`, with no time and no races between the timer and other events.
- The presentational component's modal visibility state (`src/components/ui/burger-constructor/burger-constructor.tsx:26-37`) is derived UI state; only which modals call `closeOrderModal` (lines 111, 122, 128 there) is reflected, in `CloseOrderModal`.
- Routing (`src/components/app/app.tsx`), the header, the end-to-end scripts and the build configuration are not part of this model.
- `getConstructorState`, `selectIngredients`, `selectIsLoading` and `selectError` return the state or one field and are not written out separately.
- BurgerConstructorSlice.ConstructorState.MoveIngredient: requires both indices inside the list when they differ; what JavaScript's `splice` does with indices outside it (clamping, inserting `undefined`) is not modelled.
- OrdersHistorySlice.OrdersState.OnRetrieveFulfilled: an empty `orders` list makes `orders[0]` undefined; the model stores no order (`None`) for it.
- Prices and nutrition values are integers (`nat`), as in the catalog; JavaScript floating-point numbers are not modelled.
