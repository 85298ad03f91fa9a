/** The constructor component's logic (`BurgerConstructor`): the click guard
    that turns the assembly into an order request, the price, and the events
    the component's callbacks and effects dispatch to the two slices (close
    of an order modal, the error auto-clear timeout, unmount). */
module BurgerConstructor {
  import opened Types
  import Slice = BurgerConstructorSlice
  import Orders = OrdersHistorySlice
  import Profile = ProfileUserSlice

  /** Where an anonymous click is sent. */
  const LoginPath := "/login"

  /** `navigate(path, { replace, state: { from } })`. */
  datatype Navigation = Navigation(path: string, replace: bool, fromPath: string)

  /** What a click on the order button does: nothing, a redirect to the
      login page, or the dispatch of `fetchOrders(request)`. */
  datatype ClickOutcome =
    | Ignored
    | RedirectToLogin(navigation: Navigation)
    | PlaceOrder(request: seq<string>)

  /** `ingredients.map((ingredient) => ingredient._id)`. */
  function CatalogIds(s: seq<ConstructorIngredient>): (r: seq<string>)
    ensures |r| == |s|
    ensures forall i :: 0 <= i < |s| ==> r[i] == s[i].item.catalogId
  {
    if s == [] then [] else CatalogIds(s[..|s| - 1]) + [s[|s| - 1].item.catalogId]
  }

  /** The order request: the bun's catalog id at both ends, the fillings'
      catalog ids in between, in assembly order. */
  function OrderRequest(bun: ConstructorIngredient, fillings: seq<ConstructorIngredient>): (r: seq<string>)
    ensures |r| == |fillings| + 2
    ensures r[0] == bun.item.catalogId && r[|r| - 1] == bun.item.catalogId
    ensures forall i :: 0 <= i < |fillings| ==> r[i + 1] == fillings[i].item.catalogId
  {
    [bun.item.catalogId] + CatalogIds(fillings) + [bun.item.catalogId]
  }

  /** `onOrderClick`'s guards, checked in the order bun, request in flight,
      user. `orderRequest` is the orders slice's `orderClaim`. */
  function ClickDecision(
    bun: Option<ConstructorIngredient>, fillings: seq<ConstructorIngredient>,
    orderRequest: bool, user: Option<User>, pathname: string): (r: ClickOutcome)
    ensures bun.None? || orderRequest ==> r == Ignored
    ensures r.RedirectToLogin? <==> bun.Some? && !orderRequest && user.None?
    ensures r.RedirectToLogin? ==> r.navigation == Navigation(LoginPath, true, pathname)
    ensures r.PlaceOrder? <==> bun.Some? && !orderRequest && user.Some?
    ensures r.PlaceOrder? ==> r.request == OrderRequest(bun.value, fillings)
  {
    if bun.None? then Ignored
    else if orderRequest then Ignored
    else if user.None? then RedirectToLogin(Navigation(LoginPath, true, pathname))
    else PlaceOrder(OrderRequest(bun.value, fillings))
  }

  /** Once a click has dispatched `fetchOrders.pending`, every further click
      is ignored until the request settles or the state is cleared. */
  lemma AtMostOneSubmission(
    s: Orders.OrdersSnapshot, bun: Option<ConstructorIngredient>, fillings: seq<ConstructorIngredient>,
    user: Option<User>, pathname: string)
    ensures ClickDecision(bun, fillings, Orders.Reduce(s, Orders.FetchPending).orderClaim, user, pathname) == Ignored
  {
  }

  /** How often catalog id `c` occurs in the request, for any assembly: twice
      for the bun plus as often as in the fillings. */
  lemma {:induction false} RequestCount(bun: ConstructorIngredient, fillings: seq<ConstructorIngredient>, c: string)
    ensures multiset(OrderRequest(bun, fillings))[c] ==
      (if c == bun.item.catalogId then 2 else 0) + Slice.Occurrences(fillings, c)
  {
    CatalogIdsCount(fillings, c);
    var r := OrderRequest(bun, fillings);
    assert r == [bun.item.catalogId] + CatalogIds(fillings) + [bun.item.catalogId];
  }

  /** When no filling shares the bun's catalog id, the request holds every
      catalog id exactly as often as `getIngredientCounters` shows it: twice
      for the bun, as often as in the fillings otherwise. */
  lemma RequestMatchesCounters(bun: ConstructorIngredient, fillings: seq<ConstructorIngredient>, c: string)
    requires Slice.Occurrences(fillings, bun.item.catalogId) == 0
    ensures multiset(OrderRequest(bun, fillings))[c] ==
      if c == bun.item.catalogId then 2 else Slice.Occurrences(fillings, c)
  {
    RequestCount(bun, fillings, c);
  }

  /** Otherwise the two disagree on the bun's catalog id: the counters show 2,
      while the request holds it twice plus once per filling that shares it. */
  lemma RequestExceedsBunCounter(bun: ConstructorIngredient, fillings: seq<ConstructorIngredient>)
    requires Slice.Occurrences(fillings, bun.item.catalogId) > 0
    ensures multiset(OrderRequest(bun, fillings))[bun.item.catalogId] > 2
  {
    RequestCount(bun, fillings, bun.item.catalogId);
  }

  /** The fillings' catalog ids hold `c` as often as the fillings do. */
  lemma {:induction false} CatalogIdsCount(s: seq<ConstructorIngredient>, c: string)
    ensures multiset(CatalogIds(s))[c] == Slice.Occurrences(s, c)
    decreases |s|
  {
    if s != [] {
      var init, last := s[..|s| - 1], s[|s| - 1].item.catalogId;
      CatalogIdsCount(init, c);
      assert multiset(CatalogIds(init) + [last]) == multiset(CatalogIds(init)) + multiset{last};
    }
  }

  /** `ingredients.reduce((s, v) => s + v.price, 0)`. */
  function FillingsPrice(s: seq<ConstructorIngredient>): nat
  {
    if s == [] then 0 else FillingsPrice(s[..|s| - 1]) + s[|s| - 1].item.price
  }

  /** The displayed price: the bun counts twice, then every filling. */
  function Price(bun: Option<ConstructorIngredient>, fillings: seq<ConstructorIngredient>): (r: nat)
    ensures bun.None? && fillings == [] ==> r == 0
    ensures bun.Some? ==> r >= 2 * bun.value.item.price
    ensures r >= FillingsPrice(fillings)
  {
    (if bun.Some? then bun.value.item.price * 2 else 0) + FillingsPrice(fillings)
  }

  lemma {:induction false} FillingsPriceAppend(a: seq<ConstructorIngredient>, b: seq<ConstructorIngredient>)
    ensures FillingsPrice(a + b) == FillingsPrice(a) + FillingsPrice(b)
    decreases |b|
  {
    if b == [] {
      assert a + b == a;
    } else {
      var b' := b[..|b| - 1];
      assert (a + b)[..|a + b| - 1] == a + b';
      FillingsPriceAppend(a, b');
    }
  }

  lemma FillingsPriceSnoc(a: seq<ConstructorIngredient>, x: ConstructorIngredient)
    ensures FillingsPrice(a + [x]) == FillingsPrice(a) + x.item.price
  {
    assert (a + [x])[..|a + [x]| - 1] == a;
  }

  /** The fillings' sum split at any position. */
  lemma FillingsPriceSplit(s: seq<ConstructorIngredient>, k: nat)
    requires k <= |s|
    ensures FillingsPrice(s) == FillingsPrice(s[..k]) + FillingsPrice(s[k..])
  {
    assert s[..k] + s[k..] == s;
    FillingsPriceAppend(s[..k], s[k..]);
  }

  /** Removing the filling at `i` takes exactly its price off. */
  lemma FillingsPriceRemoveAt(s: seq<ConstructorIngredient>, i: nat)
    requires i < |s|
    ensures FillingsPrice(Slice.RemoveAt(s, i)) + s[i].item.price == FillingsPrice(s)
  {
    FillingsPriceSplit(s, i + 1);
    assert s[..i + 1] == s[..i] + [s[i]];
    FillingsPriceSnoc(s[..i], s[i]);
    FillingsPriceAppend(s[..i], s[i + 1..]);
  }

  /** Inserting a filling at `i` adds exactly its price. */
  lemma FillingsPriceInsertAt(s: seq<ConstructorIngredient>, i: nat, x: ConstructorIngredient)
    requires i <= |s|
    ensures FillingsPrice(Slice.InsertAt(s, i, x)) == FillingsPrice(s) + x.item.price
  {
    FillingsPriceSplit(s, i);
    FillingsPriceSnoc(s[..i], x);
    FillingsPriceAppend(s[..i] + [x], s[i..]);
  }

  /** Adding a part: a filling adds its price; a bun replaces the old bun's
      two halves with its own. */
  lemma PriceAfterAdd(bun: Option<ConstructorIngredient>, fillings: seq<ConstructorIngredient>, x: ConstructorIngredient)
    ensures Price(bun, fillings + [x]) == Price(bun, fillings) + x.item.price
    ensures Price(Some(x), fillings) + (if bun.Some? then 2 * bun.value.item.price else 0)
      == Price(bun, fillings) + 2 * x.item.price
  {
    assert (fillings + [x])[..|fillings + [x]| - 1] == fillings;
  }

  /** Deleting a filling takes its price off; an unknown id changes nothing. */
  lemma PriceAfterDelete(bun: Option<ConstructorIngredient>, fillings: seq<ConstructorIngredient>, id: string)
    ensures var i := Slice.FindIndex(fillings, id);
      Price(bun, Slice.Deleted(fillings, id)) + (if i >= 0 then fillings[i].item.price else 0) == Price(bun, fillings)
  {
    var i := Slice.FindIndex(fillings, id);
    if i >= 0 {
      FillingsPriceRemoveAt(fillings, i);
    }
  }

  /** Reordering fillings leaves the price unchanged. */
  lemma PriceAfterMove(bun: Option<ConstructorIngredient>, fillings: seq<ConstructorIngredient>, from: nat, to: nat)
    requires from < |fillings| && to < |fillings|
    ensures Price(bun, Slice.Moved(fillings, from, to)) == Price(bun, fillings)
  {
    if from != to {
      FillingsPriceRemoveAt(fillings, from);
      FillingsPriceInsertAt(Slice.RemoveAt(fillings, from), to, fillings[from]);
    }
  }

  /** A bun at 1255 and a filling at 3000 cost 2 * 1255 + 3000. */
  lemma PriceExample(bun: Ingredient, main: Ingredient, bunId: string, mainId: string)
    requires bun.price == 1255 && main.price == 3000
    ensures Price(Some(ConstructorIngredient(bun, bunId)), [ConstructorIngredient(main, mainId)]) == 5510
  {
    var fillings := [ConstructorIngredient(main, mainId)];
    assert fillings[..0] == [];
    assert FillingsPrice(fillings) == FillingsPrice([]) + 3000;
  }

  /** `onOrderClick`: apply the guards; on success dispatch `fetchOrders`,
      whose `pending` case runs at once, and hand the request to the order
      service. */
  method OnOrderClick(c: Slice.ConstructorState, o: Orders.OrdersState, p: Profile.ProfileState, pathname: string)
    returns (outcome: ClickOutcome)
    modifies o
    ensures outcome == ClickDecision(c.bun, c.ingredients, old(o.orderClaim), p.user, pathname)
    ensures o.Snapshot() ==
      if outcome.PlaceOrder? then Orders.Reduce(old(o.Snapshot()), Orders.FetchPending) else old(o.Snapshot())
  {
    if c.bun.None? {
      return Ignored;
    }
    if o.SelectQuery() {
      return Ignored;
    }
    if p.SelectUser().None? {
      return RedirectToLogin(Navigation(LoginPath, true, pathname));
    }
    var request := OrderRequest(c.bun.value, c.ingredients);
    o.Dispatch(Orders.FetchPending);
    return PlaceOrder(request);
  }

  /** `closeOrderModal`, the close handler of the loading, the success and
      the error modal: clear the assembly, then the orders state. */
  method CloseOrderModal(c: Slice.ConstructorState, o: Orders.OrdersState)
    modifies c, o
    ensures c.bun == None && c.ingredients == []
    ensures o.Snapshot() == Orders.Reduce(old(o.Snapshot()), Orders.Clear)
  {
    c.ClearConstructor();
    o.Dispatch(Orders.Clear);
  }

  /** The error is shown when it is a non-empty text (JavaScript truthiness). */
  predicate ErrorShown(error: Option<string>) {
    error.Some? && error.value != ""
  }

  /** The auto-clear effect: while an error is shown, its timer dispatches
      `clearOrders` and nothing else. */
  method OnErrorTimeout(o: Orders.OrdersState)
    modifies o
    ensures ErrorShown(old(o.orderError)) ==> o.Snapshot() == Orders.Reduce(old(o.Snapshot()), Orders.Clear)
    ensures !ErrorShown(old(o.orderError)) ==> o.Snapshot() == old(o.Snapshot())
  {
    if ErrorShown(o.SelectOrderError()) {
      o.Dispatch(Orders.Clear);
    }
  }

  /** The unmount effect: dispatch `clearOrders`. */
  method OnUnmount(o: Orders.OrdersState)
    modifies o
    ensures o.Snapshot() == Orders.Reduce(old(o.Snapshot()), Orders.Clear)
  {
    o.Dispatch(Orders.Clear);
  }

  /** A failed submission: an anonymous click is sent to the login page;
      once logged in, the click places the order and a second click is
      ignored; the rejection is cleared by the timeout and the assembly is
      kept. */
  method FailedSubmission(bunPart: Ingredient, filling: Ingredient, u: User, failure: string)
    requires bunPart.kind == BunType && filling.kind != BunType && failure != ""
  {
    var c := new Slice.ConstructorState();
    var o := new Orders.OrdersState();
    var p := new Profile.ProfileState();
    c.AddIngredient(bunPart, "1");
    c.AddIngredient(filling, "2");

    var anonymous := OnOrderClick(c, o, p, "/");
    assert anonymous == RedirectToLogin(Navigation(LoginPath, true, "/"));
    assert !o.orderClaim;

    p.HandlePending();
    p.OnUserLoaded(u);

    var first := OnOrderClick(c, o, p, "/");
    assert first.PlaceOrder? && first.request == [bunPart.catalogId, filling.catalogId, bunPart.catalogId];
    assert o.loading && o.orderClaim;
    var again := OnOrderClick(c, o, p, "/");
    assert again == Ignored;

    o.OnFetchRejected(Some(failure));
    assert o.orderError == Some(failure);
    OnErrorTimeout(o);
    assert o.orderError == None && c.ingredients == [ConstructorIngredient(filling, "2")];
  }

  /** A successful submission: the order is stored, and closing its modal
      empties the assembly and the orders state. */
  method SuccessfulSubmission(bunPart: Ingredient, u: User, order: Order)
    requires bunPart.kind == BunType
  {
    var c := new Slice.ConstructorState();
    var o := new Orders.OrdersState();
    var p := new Profile.ProfileState();
    c.AddIngredient(bunPart, "1");
    p.OnUserLoaded(u);

    var click := OnOrderClick(c, o, p, "/");
    assert click == PlaceOrder([bunPart.catalogId, bunPart.catalogId]);
    o.OnFetchFulfilled(order);
    assert o.orderDetails == Some(order) && !o.orderClaim;
    CloseOrderModal(c, o);
    assert c.bun == None && c.ingredients == [] && o.Snapshot() == Orders.InitialState;
  }
}
