/** The burger assembly reducer (`burgerConstructorSlice`): one optional bun
    and an ordered list of fillings, each placed part carrying an instance id.
    The Immer draft the case reducers mutate is the class `ConstructorState`;
    the list surgery they perform with `splice` is specified by the functions
    `FindIndex`, `RemoveAt`, `InsertAt`, `Deleted` and `Moved` below. */
module BurgerConstructorSlice {
  import opened Types

  /** Some filling carries instance id `id`. */
  predicate HasId(s: seq<ConstructorIngredient>, id: string) {
    exists k :: 0 <= k < |s| && s[k].id == id
  }

  /** Instance ids are pairwise distinct. */
  predicate DistinctIds(s: seq<ConstructorIngredient>) {
    forall i, j :: 0 <= i < j < |s| ==> s[i].id != s[j].id
  }

  /** `Array.prototype.findIndex` on the instance id: the first index whose
      id matches, or -1. */
  function FindIndex(s: seq<ConstructorIngredient>, id: string): (r: int)
    ensures -1 <= r < |s|
    ensures r == -1 <==> !HasId(s, id)
    ensures r >= 0 ==> s[r].id == id && !HasId(s[..r], id)
    decreases |s|
  {
    if s == [] then -1
    else if s[0].id == id then 0
    else
      var r := FindIndex(s[1..], id);
      assert forall k :: 0 <= k < |s| - 1 ==> s[1..][k] == s[k + 1];
      if r == -1 then -1 else r + 1
  }

  /** `splice(i, 1)`: the list without its element at `i`. */
  function RemoveAt<T>(s: seq<T>, i: nat): (r: seq<T>)
    requires i < |s|
    ensures |r| == |s| - 1
    ensures forall k :: 0 <= k < i ==> r[k] == s[k]
    ensures forall k :: i <= k < |r| ==> r[k] == s[k + 1]
  {
    s[..i] + s[i + 1..]
  }

  /** `splice(i, 0, x)`: the list with `x` inserted before position `i`. */
  function InsertAt<T>(s: seq<T>, i: nat, x: T): (r: seq<T>)
    requires i <= |s|
    ensures |r| == |s| + 1
    ensures r[i] == x
    ensures forall k :: 0 <= k < i ==> r[k] == s[k]
    ensures forall k :: i < k < |r| ==> r[k] == s[k - 1]
  {
    s[..i] + [x] + s[i..]
  }

  /** The fillings after `deleteIngredientFromConstructor(id)`. */
  function Deleted(s: seq<ConstructorIngredient>, id: string): (r: seq<ConstructorIngredient>)
    ensures !HasId(s, id) ==> r == s
    ensures HasId(s, id) ==>
      exists i :: 0 <= i < |s| && s[i].id == id && !HasId(s[..i], id) && r == RemoveAt(s, i)
  {
    var index := FindIndex(s, id);
    if index >= 0 then RemoveAt(s, index) else s
  }

  /** The fillings after `moveIngredientInConstructor({from, to})`: nothing
      when `from == to`, otherwise cut out at `from` and put back at `to`. */
  function Moved<T>(s: seq<T>, from: nat, to: nat): (r: seq<T>)
    requires from < |s| && to < |s|
    ensures |r| == |s|
    ensures r[to] == s[from]
  {
    if from == to then s else InsertAt(RemoveAt(s, from), to, s[from])
  }

  /** Number of fillings whose catalog id is `catalogId`. */
  function Occurrences(s: seq<ConstructorIngredient>, catalogId: string): nat
  {
    if s == [] then 0
    else Occurrences(s[..|s| - 1], catalogId) + (if s[|s| - 1].item.catalogId == catalogId then 1 else 0)
  }

  /** Where each element of a moved list came from. */
  lemma MovedAt<T>(s: seq<T>, from: nat, to: nat, k: nat)
    requires from < |s| && to < |s| && k < |s|
    ensures Moved(s, from, to)[k] ==
      if k == to then s[from]
      else if from < to && from <= k < to then s[k + 1]
      else if to < from && to < k <= from then s[k - 1]
      else s[k]
  {
  }

  /** Moving back undoes a move. */
  lemma {:induction false} MovedBack<T>(s: seq<T>, from: nat, to: nat)
    requires from < |s| && to < |s|
    ensures Moved(Moved(s, from, to), to, from) == s
  {
    var m := Moved(s, from, to);
    var b := Moved(m, to, from);
    forall k | 0 <= k < |s|
      ensures b[k] == s[k]
    {
      MovedAt(m, to, from, k);
      if k == from {
      } else if to < from && to <= k < from {
        MovedAt(s, from, to, k + 1);
      } else if from < to && from < k <= to {
        MovedAt(s, from, to, k - 1);
      } else {
        MovedAt(s, from, to, k);
      }
    }
  }

  /** A move keeps the length and the multiset of fillings. */
  lemma MovedIsPermutation<T>(s: seq<T>, from: nat, to: nat)
    requires from < |s| && to < |s|
    ensures |Moved(s, from, to)| == |s|
    ensures multiset(Moved(s, from, to)) == multiset(s)
  {
    if from != to {
      var x := s[from];
      var rest := RemoveAt(s, from);
      assert s == s[..from] + [x] + s[from + 1..];
      assert multiset(rest) + multiset{x} == multiset(s);
      var r := InsertAt(rest, to, x);
      assert rest == rest[..to] + rest[to..];
      assert multiset(r) == multiset(rest[..to]) + multiset{x} + multiset(rest[to..]);
    }
  }

  /** Removing an element keeps the remaining ids distinct. */
  lemma RemoveAtKeepsDistinct(s: seq<ConstructorIngredient>, i: nat)
    requires i < |s| && DistinctIds(s)
    ensures DistinctIds(RemoveAt(s, i))
    ensures !HasId(RemoveAt(s, i), s[i].id)
  {
  }

  /** Inserting a part whose id is not present keeps ids distinct. */
  lemma InsertAtKeepsDistinct(s: seq<ConstructorIngredient>, i: nat, x: ConstructorIngredient)
    requires i <= |s| && DistinctIds(s) && !HasId(s, x.id)
    ensures DistinctIds(InsertAt(s, i, x))
  {
    var r := InsertAt(s, i, x);
    forall a, b | 0 <= a < b < |r|
      ensures r[a].id != r[b].id
    {
      if a == i {
        assert r[b] == s[b - 1];
      } else if b == i {
        assert r[a] == s[a];
      }
    }
  }

  /** A move keeps instance ids distinct and does not change which ids occur. */
  lemma MovedKeepsDistinct(s: seq<ConstructorIngredient>, from: nat, to: nat)
    requires from < |s| && to < |s| && DistinctIds(s)
    ensures DistinctIds(Moved(s, from, to))
  {
    if from != to {
      RemoveAtKeepsDistinct(s, from);
      InsertAtKeepsDistinct(RemoveAt(s, from), to, s[from]);
    }
  }

  /** Deleting keeps ids distinct and, ids being distinct, leaves no part
      with the deleted id. */
  lemma DeletedKeepsDistinct(s: seq<ConstructorIngredient>, id: string)
    requires DistinctIds(s)
    ensures DistinctIds(Deleted(s, id))
    ensures !HasId(Deleted(s, id), id)
  {
    var index := FindIndex(s, id);
    if index >= 0 {
      RemoveAtKeepsDistinct(s, index);
    }
  }

  /** Deleting the part just added with a fresh id restores the fillings. */
  lemma DeleteUndoesAdd(s: seq<ConstructorIngredient>, x: ConstructorIngredient)
    requires !HasId(s, x.id)
    ensures Deleted(s + [x], x.id) == s
  {
    var t := s + [x];
    assert t[..|s|] == s;
    assert t[|s|].id == x.id;
  }

  /** Occurrences of a concatenation add up. */
  lemma {:induction false} OccurrencesAppend(a: seq<ConstructorIngredient>, b: seq<ConstructorIngredient>, c: string)
    ensures Occurrences(a + b, c) == Occurrences(a, c) + Occurrences(b, c)
    decreases |b|
  {
    if b == [] {
      assert a + b == a;
    } else {
      var b' := b[..|b| - 1];
      assert (a + b)[..|a + b| - 1] == a + b';
      OccurrencesAppend(a, b', c);
    }
  }

  /** A move does not change how often any catalog id occurs. */
  lemma MovedKeepsOccurrences(s: seq<ConstructorIngredient>, from: nat, to: nat, c: string)
    requires from < |s| && to < |s|
    ensures Occurrences(Moved(s, from, to), c) == Occurrences(s, c)
  {
    if from != to {
      var x := s[from];
      var rest := RemoveAt(s, from);
      assert s == s[..from] + [x] + s[from + 1..];
      OccurrencesAppend(s[..from] + [x], s[from + 1..], c);
      OccurrencesAppend(s[..from], [x], c);
      OccurrencesAppend(s[..from], s[from + 1..], c);
      assert Occurrences([x], c) == Occurrences([], c) + (if x.item.catalogId == c then 1 else 0);
      assert rest == rest[..to] + rest[to..];
      OccurrencesAppend(rest[..to] + [x], rest[to..], c);
      OccurrencesAppend(rest[..to], [x], c);
      OccurrencesAppend(rest[..to], rest[to..], c);
    }
  }

  /** The Immer draft of the slice state. */
  class ConstructorState {
    var bun: Option<ConstructorIngredient>
    var ingredients: seq<ConstructorIngredient>

    /** Instance ids are unique across the bun and the fillings. */
    ghost predicate Valid()
      reads this
    {
      DistinctIds(ingredients) && (bun.Some? ==> !HasId(ingredients, bun.value.id))
    }

    /** An id that no placed part carries (what `nanoid` supplies). */
    predicate IsFreshId(id: string)
      reads this
    {
      !HasId(ingredients, id) && (bun.Some? ==> bun.value.id != id)
    }

    /** `initialState`: no bun, no fillings. */
    constructor ()
      ensures bun == None && ingredients == []
      ensures Valid()
    {
      bun := None;
      ingredients := [];
    }

    /** `addIngredientToConstructor`: `prepare` copies the catalog part and
        stamps it with `freshId`; the reducer puts a bun in the bun slot and
        appends anything else to the fillings. */
    method AddIngredient(item: Ingredient, freshId: string)
      modifies this
      ensures item.kind == BunType ==>
        bun == Some(ConstructorIngredient(item, freshId)) && ingredients == old(ingredients)
      ensures item.kind != BunType ==>
        bun == old(bun) && ingredients == old(ingredients) + [ConstructorIngredient(item, freshId)]
      ensures old(Valid()) && old(IsFreshId(freshId)) ==> Valid()
    {
      var payload := ConstructorIngredient(item, freshId);
      if item.kind == BunType {
        bun := Some(payload);
      } else {
        ingredients := ingredients + [payload];
      }
    }

    /** `deleteIngredientFromConstructor`: cut out the first filling with
        instance id `id`, if any; the bun is never touched. */
    method DeleteIngredient(id: string)
      modifies this
      ensures bun == old(bun)
      ensures ingredients == Deleted(old(ingredients), id)
      ensures |ingredients| == if HasId(old(ingredients), id) then |old(ingredients)| - 1 else |old(ingredients)|
      ensures old(Valid()) ==> Valid() && !HasId(ingredients, id)
    {
      ghost var before := ingredients;
      var index := FindIndex(ingredients, id);
      if index >= 0 {
        ingredients := ingredients[..index] + ingredients[index + 1..];
      }
      if DistinctIds(before) {
        DeletedKeepsDistinct(before, id);
      }
    }

    /** `moveIngredientInConstructor`: equal indices leave the list alone;
        otherwise, for indices inside the list, move the filling at `from`
        to position `to`. */
    method MoveIngredient(from: nat, to: nat)
      requires from == to || (from < |ingredients| && to < |ingredients|)
      modifies this
      ensures bun == old(bun)
      ensures from == to ==> ingredients == old(ingredients)
      ensures from != to ==> ingredients == Moved(old(ingredients), from, to)
      ensures multiset(ingredients) == multiset(old(ingredients))
      ensures old(Valid()) ==> Valid()
    {
      if from == to {
        return;
      }
      ghost var before := ingredients;
      var moved := ingredients[from];
      ingredients := ingredients[..from] + ingredients[from + 1..];
      ingredients := ingredients[..to] + [moved] + ingredients[to..];
      MovedIsPermutation(before, from, to);
      if DistinctIds(before) {
        MovedKeepsDistinct(before, from, to);
        if bun.Some? {
          assert multiset(ingredients) == multiset(before);
          if HasId(ingredients, bun.value.id) {
            var k :| 0 <= k < |ingredients| && ingredients[k].id == bun.value.id;
            assert ingredients[k] in multiset(before);
          }
        }
      }
    }

    /** `clearConstructor`: back to the initial state. */
    method ClearConstructor()
      modifies this
      ensures bun == None && ingredients == []
      ensures Valid()
    {
      ingredients := [];
      bun := None;
    }

    /** `getIngredientCounters`: for each catalog id, how many fillings carry
        it; a present bun's catalog id maps to 2, replacing any count. */
    method GetIngredientCounters() returns (counters: map<string, nat>)
      ensures forall c :: c in counters <==>
        (Occurrences(ingredients, c) > 0 || (bun.Some? && bun.value.item.catalogId == c))
      ensures forall c :: c in counters ==>
        counters[c] == if bun.Some? && bun.value.item.catalogId == c then 2 else Occurrences(ingredients, c)
    {
      counters := map[];
      var i := 0;
      while i < |ingredients|
        invariant 0 <= i <= |ingredients|
        invariant forall c :: c in counters <==> Occurrences(ingredients[..i], c) > 0
        invariant forall c :: c in counters ==> counters[c] == Occurrences(ingredients[..i], c)
      {
        var c := ingredients[i].item.catalogId;
        counters := counters[c := (if c in counters then counters[c] else 0) + 1];
        assert ingredients[..i + 1][..i] == ingredients[..i];
        i := i + 1;
      }
      assert ingredients[..i] == ingredients;
      if bun.Some? {
        counters := counters[bun.value.item.catalogId := 2];
      }
    }
  }
}
