/** Records shared by the store slices: the catalog part, the placed instance,
    an order and a user, as the slices and their tests use them. */
module Types {

  datatype Option<T> = None | Some(value: T)

  /** The `type` value that makes a catalog part a bun. */
  const BunType := "bun"

  /** A catalog part (`TIngredient`). `catalogId` is the record's `_id`;
      `kind` is its `type` field ("bun", "sauce", "main" in the catalog). */
  datatype Ingredient = Ingredient(
    catalogId: string,
    name: string,
    kind: string,
    proteins: nat,
    fat: nat,
    carbohydrates: nat,
    calories: nat,
    price: nat,
    image: string,
    imageMobile: string,
    imageLarge: string)

  /** A part placed in the constructor (`TConstructorIngredient`): every
      catalog field plus an instance `id` that tells equal parts apart. */
  datatype ConstructorIngredient = ConstructorIngredient(item: Ingredient, id: string)

  /** An order as the order service returns it (`TOrder`); `dbId` is the
      record's `_id`. */
  datatype Order = Order(
    dbId: string,
    status: string,
    name: string,
    createdAt: string,
    updatedAt: string,
    number: nat,
    ingredients: seq<string>)

  /** The authenticated user (`TUser`). */
  datatype User = User(email: string, name: string)
}
