/** The catalog reducer (`ingredientsSlice`): the load lifecycle of the
    parts list, written as functions that return a new state (the source's
    case reducers build new objects with spread), and the three views of the
    catalog by `type`. */
module IngredientsSlice {
  import opened Types

  const SauceType := "sauce"
  const MainType := "main"

  datatype IngredientsState = IngredientsState(
    ingredients: seq<Ingredient>,
    isLoading: bool,
    error: Option<string>)

  const InitialState := IngredientsState([], false, None)

  /** The lifecycle of `fetchIngredients`; `Rejected` carries
      `action.error.message`, `None` when there is none. */
  datatype IngredientsAction =
    | Pending
    | Fulfilled(payload: seq<Ingredient>)
    | Rejected(message: Option<string>)

  /** `action.error.message || null`. */
  function ErrorText(message: Option<string>): (r: Option<string>)
    ensures r.Some? <==> message.Some? && message.value != ""
    ensures r.Some? ==> r == message
  {
    if message.Some? && message.value != "" then message else None
  }

  /** The slice reducer. */
  function Reduce(s: IngredientsState, a: IngredientsAction): (r: IngredientsState)
    ensures r.isLoading <==> a.Pending?
    ensures r.ingredients == if a.Fulfilled? then a.payload else s.ingredients
    ensures a.Fulfilled? ==> r.error == s.error
    ensures a.Pending? ==> r.error == None
    ensures a.Rejected? ==> r.error == ErrorText(a.message)
  {
    match a
    case Pending => s.(isLoading := true, error := None)
    case Fulfilled(payload) => s.(ingredients := payload, isLoading := false)
    case Rejected(message) => s.(isLoading := false, error := ErrorText(message))
  }

  /** A whole load: pending then fulfilled gives the payload, no error;
      pending then rejected keeps the old catalog and shows the message. */
  lemma LoadLifecycle(s: IngredientsState, payload: seq<Ingredient>, message: Option<string>)
    ensures Reduce(Reduce(s, Pending), Fulfilled(payload)) == IngredientsState(payload, false, None)
    ensures Reduce(Reduce(s, Pending), Rejected(message)) == IngredientsState(s.ingredients, false, ErrorText(message))
  {
  }

  /** `ingredients.filter(i => i.type === kind)`. */
  function FilterByType(items: seq<Ingredient>, kind: string): (r: seq<Ingredient>)
    ensures |r| <= |items|
    ensures forall k :: 0 <= k < |r| ==> r[k].kind == kind
  {
    if items == [] then []
    else (if items[0].kind == kind then [items[0]] else []) + FilterByType(items[1..], kind)
  }

  /** The view keeps each part of its type as often as the catalog has it,
      and no part of another type. */
  lemma {:induction false} FilterKeepsKindCount(items: seq<Ingredient>, kind: string, x: Ingredient)
    ensures multiset(FilterByType(items, kind))[x] == if x.kind == kind then multiset(items)[x] else 0
  {
    if items != [] {
      FilterKeepsKindCount(items[1..], kind, x);
      assert items == [items[0]] + items[1..];
    }
  }

  function SelectBuns(s: IngredientsState): seq<Ingredient> { FilterByType(s.ingredients, BunType) }
  function SelectSauces(s: IngredientsState): seq<Ingredient> { FilterByType(s.ingredients, SauceType) }
  function SelectMains(s: IngredientsState): seq<Ingredient> { FilterByType(s.ingredients, MainType) }

  /** Filtering keeps catalog order: it distributes over concatenation. */
  lemma {:induction false} FilterKeepsOrder(a: seq<Ingredient>, b: seq<Ingredient>, kind: string)
    ensures FilterByType(a + b, kind) == FilterByType(a, kind) + FilterByType(b, kind)
  {
    if a == [] {
      assert a + b == b;
    } else {
      assert (a + b)[1..] == a[1..] + b;
      FilterKeepsOrder(a[1..], b, kind);
    }
  }

  predicate HasKnownType(x: Ingredient) {
    x.kind == BunType || x.kind == SauceType || x.kind == MainType
  }

  /** Number of parts whose type is none of the three. */
  function OtherCount(items: seq<Ingredient>): nat
  {
    if items == [] then 0 else (if HasKnownType(items[0]) then 0 else 1) + OtherCount(items[1..])
  }

  /** Every part lands in exactly one of the three views or among the others. */
  lemma {:induction false} ViewsAndOthersPartition(items: seq<Ingredient>)
    ensures |FilterByType(items, BunType)| + |FilterByType(items, SauceType)| + |FilterByType(items, MainType)|
      + OtherCount(items) == |items|
  {
    if items != [] {
      ViewsAndOthersPartition(items[1..]);
    }
  }

  /** No other parts iff every part is a bun, a sauce or a main. */
  lemma {:induction false} NoOthersIffAllKnown(items: seq<Ingredient>)
    ensures OtherCount(items) == 0 <==> forall k :: 0 <= k < |items| ==> HasKnownType(items[k])
  {
    if items != [] {
      NoOthersIffAllKnown(items[1..]);
      assert forall k :: 0 < k < |items| ==> items[k] == items[1..][k - 1];
    }
  }

  /** No part appears in two views. */
  lemma ViewsAreDisjoint(s: IngredientsState, x: Ingredient)
    ensures !(x in SelectBuns(s) && x in SelectSauces(s))
    ensures !(x in SelectBuns(s) && x in SelectMains(s))
    ensures !(x in SelectSauces(s) && x in SelectMains(s))
  {
  }

  /** The three views together are no longer than the catalog, and exactly
      as long iff every part is a bun, a sauce or a main. */
  lemma ViewsCoverCatalog(s: IngredientsState)
    ensures |SelectBuns(s)| + |SelectSauces(s)| + |SelectMains(s)| <= |s.ingredients|
    ensures |SelectBuns(s)| + |SelectSauces(s)| + |SelectMains(s)| == |s.ingredients|
      <==> forall k :: 0 <= k < |s.ingredients| ==> HasKnownType(s.ingredients[k])
  {
    ViewsAndOthersPartition(s.ingredients);
    NoOthersIffAllKnown(s.ingredients);
  }
}
